/** JSON-like values as they appear in request params and in jsonb columns
    (`meta`, `source`, `params`, `content`), with Ruby's notions of truthiness
    (`||`) and of `blank?` / `present?` stated over them. */
module JsonValues {

  datatype Option<+T> = None | Some(value: T)

  /** A JSON value. `JNull` also stands for Ruby's `nil`. */
  datatype Json =
    | JNull
    | JBool(b: bool)
    | JNum(n: int)
    | JStr(s: string)
    | JArr(items: seq<Json>)
    | JObj(fields: map<string, Json>)

  /** `hash[key]`: a missing key reads as nil. */
  function Get(m: map<string, Json>, key: string): Json
  {
    if key in m then m[key] else JNull
  }

  /** Ruby truthiness: only nil and false are falsy. */
  predicate Truthy(j: Json)
  {
    j != JNull && j != JBool(false)
  }

  /** Ruby's `a || b`. */
  function Or(a: Json, b: Json): (r: Json)
    ensures Truthy(a) ==> r == a
    ensures !Truthy(a) ==> r == b
  {
    if Truthy(a) then a else b
  }

  /** The whitespace Ruby's `blank?` and `split(' ')` skip (ASCII only). */
  predicate IsSpace(c: char)
  {
    c == ' ' || c == '\t' || c == '\n' || c == '\U{B}' || c == '\U{C}' || c == '\r'
  }

  predicate AllSpace(s: string)
  {
    forall i :: 0 <= i < |s| ==> IsSpace(s[i])
  }

  /** ActiveSupport's `blank?`: nil, false, a whitespace-only string, an empty
      array or an empty hash. Numbers and true are never blank. */
  predicate Blank(j: Json)
  {
    match j
    case JNull => true
    case JBool(b) => !b
    case JNum(_) => false
    case JStr(s) => AllSpace(s)
    case JArr(a) => |a| == 0
    case JObj(m) => |m| == 0
  }

  /** ActiveSupport's `present?`. */
  predicate Present(j: Json)
  {
    !Blank(j)
  }
}
