/**
 * A decoded JSON document, as Python's `json` module hands it to the chart code,
 * and the `dict.get(key, default)` reads that code performs on it.
 *
 * The reads are used with "shape" predicates: a shape predicate says that an object
 * field, WHEN PRESENT, holds the JSON kind FHIR R4 gives it. An absent field is always
 * allowed and falls back to the default the code names.
 */
module Json {

  /** A number keeps the text Python's `str()` gives it, e.g. "38.3" or "112". */
  datatype Json =
    | JNull
    | JBool(b: bool)
    | JNum(text: string)
    | JStr(s: string)
    | JList(items: seq<Json>)
    | JObj(fields: map<string, Json>)

  /** The `{}` literal the code passes as a default. */
  const EmptyObj: Json := JObj(map[])

  /** `key in o` for a dict `o`. */
  predicate Has(o: Json, key: string) {
    o.JObj? && key in o.fields
  }

  predicate StrAt(o: Json, key: string) {
    o.JObj? && (key in o.fields ==> o.fields[key].JStr?)
  }

  predicate NumAt(o: Json, key: string) {
    o.JObj? && (key in o.fields ==> o.fields[key].JNum?)
  }

  predicate ObjAt(o: Json, key: string) {
    o.JObj? && (key in o.fields ==> o.fields[key].JObj?)
  }

  predicate ListAt(o: Json, key: string) {
    o.JObj? && (key in o.fields ==> o.fields[key].JList?)
  }

  /** Every element of `items` is a string. */
  predicate AllStrings(items: seq<Json>) {
    forall i | 0 <= i < |items| :: items[i].JStr?
  }

  /** Every element of `items` is an object. */
  predicate AllObjects(items: seq<Json>) {
    forall i | 0 <= i < |items| :: items[i].JObj?
  }

  predicate StrListAt(o: Json, key: string) {
    ListAt(o, key) && (key in o.fields ==> AllStrings(o.fields[key].items))
  }

  /** `o.get(key, default)` on a dict, whatever the field holds. */
  function Get(o: Json, key: string, default: Json): Json
    requires o.JObj?
  {
    if key in o.fields then o.fields[key] else default
  }

  /** `o.get(key, default)` for a string field. */
  function GetStr(o: Json, key: string, default: string): string
    requires StrAt(o, key)
  {
    if key in o.fields then o.fields[key].s else default
  }

  /** `o.get(key, {})` for an object field. */
  function GetObj(o: Json, key: string): (r: Json)
    requires ObjAt(o, key)
    ensures r.JObj?
  {
    if key in o.fields then o.fields[key] else EmptyObj
  }

  /** `o.get(key, default)` for a list field. */
  function GetList(o: Json, key: string, default: seq<Json>): seq<Json>
    requires ListAt(o, key)
  {
    if key in o.fields then o.fields[key].items else default
  }

  /** `str(o.get(key, ''))` for a number field: its text, or "" when absent. */
  function NumText(o: Json, key: string): string
    requires NumAt(o, key)
  {
    if key in o.fields then o.fields[key].text else ""
  }

  /** The Python strings held by a list of JSON strings. */
  function Strings(items: seq<Json>): (r: seq<string>)
    requires AllStrings(items)
    ensures |r| == |items| && forall i | 0 <= i < |items| :: items[i] == JStr(r[i])
  {
    seq(|items|, i requires 0 <= i < |items| => items[i].s)
  }

  /** `o.get(key, [])` for a list of strings. */
  function GetStrList(o: Json, key: string): seq<string>
    requires StrListAt(o, key)
  {
    if key in o.fields then Strings(o.fields[key].items) else []
  }
}
