/**
 * The JavaScript values that flow through the adapter: decoded JSON plus `undefined`,
 * with the coercions the source relies on (truthiness, `||`, `??`, optional property
 * access, `String(v)` and `JSON.stringify(v)`). Numbers are integers here.
 */
module Js {
  import opened Text

  datatype Json =
    | Undefined
    | Null
    | Bool(b: bool)
    | Num(n: int)
    | Str(s: string)
    | Arr(elems: seq<Json>)
      /** Object entries in `Object.entries` order. */
    | Obj(fields: seq<(string, Json)>)

  /** `v == null`: null or undefined. */
  predicate IsNullish(v: Json) {
    v.Undefined? || v.Null?
  }

  /** JavaScript truthiness (there is no NaN among integers). */
  predicate Truthy(v: Json) {
    match v
    case Undefined => false
    case Null => false
    case Bool(b) => b
    case Num(n) => n != 0
    case Str(s) => s != ""
    case Arr(_) => true
    case Obj(_) => true
  }

  /** `a || b` */
  function Or(a: Json, b: Json): Json {
    if Truthy(a) then a else b
  }

  /** `a ?? b` */
  function Coalesce(a: Json, b: Json): Json {
    if IsNullish(a) then b else a
  }

  /** The value of the first entry named k, undefined when there is none. */
  function Lookup(fields: seq<(string, Json)>, k: string): Json {
    if |fields| == 0 then Undefined
    else if fields[0].0 == k then fields[0].1
    else Lookup(fields[1..], k)
  }

  /** `v?.[k]`: a property of an object; undefined for every other value. */
  function Get(v: Json, k: string): Json {
    match v
    case Obj(fields) => Lookup(fields, k)
    case _ => Undefined
  }

  /** `{ ...fields, [k]: v }`: an existing entry keeps its place, a new one goes last. */
  function Put(fields: seq<(string, Json)>, k: string, v: Json): seq<(string, Json)> {
    if |fields| == 0 then [(k, v)]
    else if fields[0].0 == k then [(k, v)] + fields[1..]
    else [fields[0]] + Put(fields[1..], k, v)
  }

  /** After Put, k reads back as v and every other key as before. */
  lemma {:induction false} PutLookup(fields: seq<(string, Json)>, k: string, v: Json, k': string)
    ensures Lookup(Put(fields, k, v), k') == if k' == k then v else Lookup(fields, k')
  {
    if |fields| > 0 && fields[0].0 != k {
      PutLookup(fields[1..], k, v, k');
      assert Put(fields, k, v)[1..] == Put(fields[1..], k, v);
    }
  }

  /** The element rendering of `Array.prototype.join`: null and undefined become "". */
  function JoinElement(v: Json, ghost parent: Json): string
    requires v < parent
    decreases parent, 0
  {
    if IsNullish(v) then "" else ToStr(v)
  }

  /** `String(v)` */
  function ToStr(v: Json): string
    decreases v, 1
  {
    match v
    case Undefined => "undefined"
    case Null => "null"
    case Bool(b) => if b then "true" else "false"
    case Num(n) => IntToString(n)
    case Str(s) => s
    case Arr(elems) => Join(seq(|elems|, i requires 0 <= i < |elems| => JoinElement(elems[i], v)), ",")
    case Obj(_) => "[object Object]"
  }

  function HexLower(d: int): char
    requires 0 <= d < 16
  {
    if d < 10 then ('0' as int + d) as char else ('a' as int + d - 10) as char
  }

  /** One character inside a JSON string literal, as `JSON.stringify` writes it. */
  function EscapeChar(c: char): string {
    if c == '"' then "\\\""
    else if c == '\\' then "\\\\"
    else if c == '\U{08}' then "\\b"
    else if c == '\U{0C}' then "\\f"
    else if c == '\n' then "\\n"
    else if c == '\r' then "\\r"
    else if c == '\t' then "\\t"
    else if c < ' ' then "\\u00" + [HexLower(c as int / 16), HexLower(c as int % 16)]
    else [c]
  }

  function EscapeString(s: string): string {
    if |s| == 0 then "" else EscapeChar(s[0]) + EscapeString(s[1..])
  }

  function Quote(s: string): string {
    "\"" + EscapeString(s) + "\""
  }

  /** An array element in `JSON.stringify`: undefined is written as null. */
  function StringifyElement(v: Json, ghost parent: Json): string
    requires v < parent
    decreases parent, 0
  {
    if v.Undefined? then "null" else Stringify(v)
  }

  /** An object entry in `JSON.stringify`: entries whose value is undefined are left out. */
  function StringifyEntry(e: (string, Json), ghost parent: Json): seq<string>
    requires e.1 < parent
    decreases parent, 0
  {
    if e.1.Undefined? then [] else [Quote(e.0) + ":" + Stringify(e.1)]
  }

  function Flatten(xss: seq<seq<string>>): seq<string> {
    if |xss| == 0 then [] else xss[0] + Flatten(xss[1..])
  }

  /** `JSON.stringify(v)` for a value other than undefined (RFC 8259 text). */
  function Stringify(v: Json): string
    requires !v.Undefined?
    decreases v, 1
  {
    match v
    case Null => "null"
    case Bool(b) => if b then "true" else "false"
    case Num(n) => IntToString(n)
    case Str(s) => Quote(s)
    case Arr(elems) => "[" + Join(seq(|elems|, i requires 0 <= i < |elems| => StringifyElement(elems[i], v)), ",") + "]"
    case Obj(fields) =>
      "{" + Join(Flatten(seq(|fields|, i requires 0 <= i < |fields| => StringifyEntry(fields[i], v))), ",") + "}"
  }
}
