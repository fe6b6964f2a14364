/**
 * JSON values as JavaScript holds them after `JSON.parse`, and the text
 * `JSON.stringify` produces for them: compact, and with an indent of two
 * spaces.  Numbers are integers here.  Object members keep their order.
 */
module Json {
  import opened Wrappers
  import Str

  datatype Json =
    | JNull
    | JBool(b: bool)
    | JNum(n: int)
    | JStr(s: string)
    | JArr(items: seq<Json>)
    | JObj(members: seq<Member>)

  datatype Member = Member(key: string, value: Json)

  /** JavaScript truthiness of a value: `null`, `false`, `0` and `""` are falsy. */
  predicate Truthy(j: Json)
  {
    match j
    case JNull => false
    case JBool(b) => b
    case JNum(n) => n != 0
    case JStr(s) => s != ""
    case _ => true
  }

  predicate IsObject(j: Json) { j.JObj? }

  /** Property access `j[key]` on an object; `undefined` (None) otherwise or when absent. */
  function Get(j: Json, key: string): (r: Option<Json>)
    ensures r.Some? ==> j.JObj? && exists k :: 0 <= k < |j.members| && j.members[k] == Member(key, r.value)
  {
    match j
    case JObj(ms) => Lookup(ms, key)
    case _ => None
  }

  function Lookup(ms: seq<Member>, key: string): (r: Option<Json>)
    ensures r.Some? ==> exists k :: 0 <= k < |ms| && ms[k] == Member(key, r.value)
    ensures r.None? ==> forall k :: 0 <= k < |ms| ==> ms[k].key != key
  {
    if |ms| == 0 then None
    else if ms[0].key == key then Some(ms[0].value)
    else
      var r := Lookup(ms[1..], key);
      assert r.Some? ==> ms[1..][0..] == ms[1..];
      r
  }

  /** Looking up in a member list that starts with `m`. */
  lemma LookupCons(m: Member, rest: seq<Member>, key: string)
    ensures Lookup([m] + rest, key) == if m.key == key then Some(m.value) else Lookup(rest, key)
  {
    assert ([m] + rest)[1..] == rest;
  }

  /** A member appended after members of other keys is the one found. */
  lemma {:induction false} LookupLast(ms: seq<Member>, m: Member)
    requires forall k :: 0 <= k < |ms| ==> ms[k].key != m.key
    ensures Lookup(ms + [m], m.key) == Some(m.value)
  {
    if |ms| > 0 {
      LookupCons(ms[0], ms[1..] + [m], m.key);
      assert ms + [m] == [ms[0]] + (ms[1..] + [m]);
      LookupLast(ms[1..], m);
    } else {
      assert [] + [m] == [m];
    }
  }

  /** The string held at `key`, if the member exists and is a string. */
  function GetString(j: Json, key: string): Option<string>
  {
    match Get(j, key)
    case Some(JStr(s)) => Some(s)
    case _ => None
  }

  function HexDigit(d: nat): char
    requires d < 16
  {
    "0123456789abcdef"[d]
  }

  /** How `JSON.stringify` writes one character inside a string literal. */
  function EscapeChar(c: char): (r: string)
    ensures forall i :: 0 <= i < |r| ==> r[i] != '\n' && r[i] != '\r'
  {
    if c == '"' then "\\\""
    else if c == '\\' then "\\\\"
    else if c == '\n' then "\\n"
    else if c == '\r' then "\\r"
    else if c == '\t' then "\\t"
    else if c == '\U{8}' then "\\b"
    else if c == '\U{C}' then "\\f"
    else if (c as int) < 32 then "\\u00" + [HexDigit((c as int) / 16), HexDigit((c as int) % 16)]
    else [c]
  }

  function EscapeString(s: string): (r: string)
    ensures forall i :: 0 <= i < |r| ==> r[i] != '\n' && r[i] != '\r'
  {
    if |s| == 0 then "" else EscapeChar(s[0]) + EscapeString(s[1..])
  }

  /** A string literal as `JSON.stringify` writes it. */
  function Quote(s: string): (r: string)
    ensures |r| >= 2 && r[0] == '"' && r[|r| - 1] == '"'
    ensures forall i :: 0 <= i < |r| ==> r[i] != '\n' && r[i] != '\r'
  {
    "\"" + EscapeString(s) + "\""
  }

  predicate NoLineBreak(s: string)
  {
    forall i :: 0 <= i < |s| ==> s[i] != '\n' && s[i] != '\r'
  }

  /** `JSON.stringify(j)`; compact output never breaks a line. */
  function Stringify(j: Json): (r: string)
    ensures NoLineBreak(r)
    decreases j, 1
  {
    match j
    case JNull => "null"
    case JBool(b) => Str.BoolToString(b)
    case JNum(n) => Str.IntToString(n)
    case JStr(s) => Quote(s)
    case JArr(items) => "[" + StringifyItems(j, items) + "]"
    case JObj(ms) => "{" + StringifyMembers(j, ms) + "}"
  }

  function StringifyItems(ghost parent: Json, items: seq<Json>): (r: string)
    requires forall k :: 0 <= k < |items| ==> items[k] < parent
    ensures NoLineBreak(r)
    decreases parent, 0, |items|
  {
    if |items| == 0 then ""
    else if |items| == 1 then Stringify(items[0])
    else Stringify(items[0]) + "," + StringifyItems(parent, items[1..])
  }

  function StringifyMembers(ghost parent: Json, ms: seq<Member>): (r: string)
    requires forall k :: 0 <= k < |ms| ==> ms[k].value < parent
    ensures NoLineBreak(r)
    decreases parent, 0, |ms|
  {
    if |ms| == 0 then ""
    else
      var head := Quote(ms[0].key) + ":" + Stringify(ms[0].value);
      if |ms| == 1 then head else head + "," + StringifyMembers(parent, ms[1..])
  }

  /** `JSON.stringify(j, null, 2)` with the value starting at nesting depth `depth`. */
  function Pretty(j: Json, depth: nat): string
    decreases j, 1
  {
    match j
    case JArr(items) =>
      if |items| == 0 then "[]"
      else "[\n" + PrettyItems(j, items, depth + 2) + "\n" + Str.Repeat(' ', depth) + "]"
    case JObj(ms) =>
      if |ms| == 0 then "{}"
      else "{\n" + PrettyMembers(j, ms, depth + 2) + "\n" + Str.Repeat(' ', depth) + "}"
    case _ => Stringify(j)
  }

  function PrettyItems(ghost parent: Json, items: seq<Json>, depth: nat): string
    requires forall k :: 0 <= k < |items| ==> items[k] < parent
    decreases parent, 0, |items|
  {
    if |items| == 0 then ""
    else
      var head := Str.Repeat(' ', depth) + Pretty(items[0], depth);
      if |items| == 1 then head else head + ",\n" + PrettyItems(parent, items[1..], depth)
  }

  function PrettyMembers(ghost parent: Json, ms: seq<Member>, depth: nat): string
    requires forall k :: 0 <= k < |ms| ==> ms[k].value < parent
    decreases parent, 0, |ms|
  {
    if |ms| == 0 then ""
    else
      var head := Str.Repeat(' ', depth) + Quote(ms[0].key) + ": " + Pretty(ms[0].value, depth);
      if |ms| == 1 then head else head + ",\n" + PrettyMembers(parent, ms[1..], depth)
  }

  /** `JSON.stringify(data, null, 2)` */
  function PrettyPrint(j: Json): string
  {
    Pretty(j, 0)
  }

  /** An array of strings, as the generators embed string lists. */
  function StringArray(ss: seq<string>): (r: Json)
    ensures r.JArr? && |r.items| == |ss|
  {
    JArr(seq(|ss|, k requires 0 <= k < |ss| => JStr(ss[k])))
  }

  function Obj2(k1: string, v1: Json, k2: string, v2: Json): Json
  {
    JObj([Member(k1, v1), Member(k2, v2)])
  }

  function Obj1(k1: string, v1: Json): Json
  {
    JObj([Member(k1, v1)])
  }

  /**
   * `String(v)` and `${v}` in a template literal; `None` is `undefined`.
   * Arrays print their elements joined by commas, with `null` elements empty.
   */
  function JsString(v: Option<Json>): (r: string)
    ensures v.Some? && v.value.JStr? ==> r == v.value.s
    ensures v.None? ==> r == "undefined"
  {
    match v
    case None => "undefined"
    case Some(j) => JsText(j)
  }

  function JsText(j: Json): string
    decreases j, 1
  {
    match j
    case JNull => "null"
    case JBool(b) => Str.BoolToString(b)
    case JNum(n) => Str.IntToString(n)
    case JStr(s) => s
    case JArr(items) => JsItems(j, items)
    case JObj(_) => "[object Object]"
  }

  function JsItems(ghost parent: Json, items: seq<Json>): string
    requires forall k :: 0 <= k < |items| ==> items[k] < parent
    decreases parent, 0, |items|
  {
    if |items| == 0 then ""
    else
      var head := if items[0].JNull? then "" else JsText(items[0]);
      if |items| == 1 then head else head + "," + JsItems(parent, items[1..])
  }
}
