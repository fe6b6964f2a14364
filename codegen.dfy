/**
 * What the Office.js code generators share.  A generator fills a backtick
 * template and calls `.trim()` on it; every template starts with a line
 * break and ends with `});`, so the trimmed text is the template's lines
 * after the first one, joined by "\n".  A template is modelled as that list
 * of lines.
 */
module Codegen {
  import opened Wrappers
  import Str
  import Json

  /** The generated text of a template given as lines. */
  function Code(lines: seq<string>): string
  {
    Str.Join(lines, "\n")
  }

  /** A plan made of four blocks holds a statement exactly when one of its blocks does. */
  lemma InBlocks<T>(a: seq<T>, b: seq<T>, c: seq<T>, d: seq<T>, x: T)
    ensures x in a + b + c + d <==> x in a || x in b || x in c || x in d
  {
  }

  /** Every piece of every template line occurs in the generated text. */
  lemma HasTail(lines: seq<string>, k: nat, pre: string, mid: string)
    requires k < |lines| && lines[k] == pre + mid
    ensures Str.Contains(Code(lines), mid)
  {
    Str.JoinContainsPart(lines, "\n", k);
    Str.ContainsSelf(mid);
    Str.ContainsInPrefix(mid, pre, mid);
    Str.ContainsTransitive(Code(lines), lines[k], mid);
  }

  lemma HasLine(lines: seq<string>, k: nat, pre: string, mid: string, post: string)
    requires k < |lines| && lines[k] == pre + mid + post
    ensures Str.Contains(Code(lines), mid)
  {
    Str.JoinContainsPart(lines, "\n", k);
    Str.ContainsSelf(mid);
    Str.ContainsInPrefix(mid, post, mid);
    Str.ContainsInPrefix(mid + post, pre, mid);
    assert pre + (mid + post) == lines[k];
    Str.ContainsTransitive(Code(lines), lines[k], mid);
  }

  /** `<variable>.isNullObject` */
  function NullTest(variable: string): string
  {
    variable + ".isNullObject"
  }

  /**
   * The lines that look an item up into `variable` with a
   * `getItemOrNullObject` call and return `{ success: false, error: message }`
   * when it comes back as the null object.
   */
  function NullGuard(variable: string, lookup: string, message: string): (r: seq<string>)
    ensures |r| == 10
  {
    [ "  const " + variable + " = " + (lookup) + ";",
      "  await context.sync();",
      "  ",
      "  if (" + (NullTest(variable)) + ") {",
      "    return {",
      "      success: false,",
      "      " + ("error: \"" + message + "\""),
      "    };",
      "  }",
      "  " ]
  }

  /** The guard occupies lines `k` to `k + 9`. */
  predicate GuardAt(lines: seq<string>, k: nat, variable: string, lookup: string, message: string)
  {
    k + 10 <= |lines| && lines[k..k + 10] == NullGuard(variable, lookup, message)
  }

  /**
   * A template holding a guard holds it at the guard's own position, and
   * contains the lookup, the null test and the failure message.
   */
  lemma GuardText(pre: seq<string>, variable: string, lookup: string, message: string, post: seq<string>)
    ensures GuardAt(pre + NullGuard(variable, lookup, message) + post, |pre|, variable, lookup, message)
    ensures Str.Contains(Code(pre + NullGuard(variable, lookup, message) + post), lookup)
    ensures Str.Contains(Code(pre + NullGuard(variable, lookup, message) + post), NullTest(variable))
    ensures Str.Contains(Code(pre + NullGuard(variable, lookup, message) + post), "error: \"" + message + "\"")
  {
    var g := NullGuard(variable, lookup, message);
    var lines := pre + g + post;
    assert lines[|pre|..|pre| + 10] == g;
    assert lines[|pre|] == g[0];
    assert lines[|pre| + 3] == g[3];
    assert lines[|pre| + 6] == g[6];
    HasLine(lines, |pre|, "  const " + variable + " = ", lookup, ";");
    HasLine(lines, |pre| + 3, "  if (", NullTest(variable), ") {");
    HasTail(lines, |pre| + 6, "      ", "error: \"" + message + "\"");
  }

  /** `<index> < 0 || <index> >= <count>`: the test that an index is out of range. */
  function BoundsTest(index: int, count: string): string
  {
    Num(index) + " < 0 || " + Num(index) + " >= " + count
  }

  /** The lines that return `{ success: false, error: message }` for an index outside `0 ≤ index < count`. */
  function IndexGuard(index: int, count: string, message: string): (r: seq<string>)
    ensures |r| == 6
  {
    [ "  if (" + (BoundsTest(index, count)) + ") {",
      "    return {",
      "      success: false,",
      "      " + ("error: \"" + message + "\""),
      "    };",
      "  }" ]
  }

  /** A template holding an index guard holds it at its own position and contains the test and the message. */
  lemma IndexGuardText(pre: seq<string>, index: int, count: string, message: string, post: seq<string>)
    ensures var lines := pre + IndexGuard(index, count, message) + post;
      lines[|pre|..|pre| + 6] == IndexGuard(index, count, message)
    ensures Str.Contains(Code(pre + IndexGuard(index, count, message) + post), BoundsTest(index, count))
    ensures Str.Contains(Code(pre + IndexGuard(index, count, message) + post), "error: \"" + message + "\"")
  {
    var g := IndexGuard(index, count, message);
    var lines := pre + g + post;
    assert lines[|pre|..|pre| + 6] == g;
    assert lines[|pre|] == g[0];
    assert lines[|pre| + 3] == g[3];
    HasLine(lines, |pre|, "  if (", BoundsTest(index, count), ") {");
    HasTail(lines, |pre| + 3, "      ", "error: \"" + message + "\"");
  }

  /**
   * The lines an indented slot `${items.join('\n' + indent)}` produces: one
   * line per item with the indent in front, or the bare indent when there
   * are no items.
   */
  function Spliced(indent: string, items: seq<string>): (r: seq<string>)
    ensures |r| == if items == [] then 1 else |items|
    ensures items != [] ==> forall k :: 0 <= k < |items| ==> r[k] == indent + items[k]
  {
    if items == [] then [indent] else Str.Prefixed(indent, items)
  }

  /** The spliced lines are exactly the text the slot produces. */
  lemma {:induction false} SplicedText(indent: string, items: seq<string>)
    ensures Str.Join(Spliced(indent, items), "\n") == indent + Str.Join(items, "\n" + indent)
    decreases |items|
  {
    if items == [] {
      assert indent + "" == indent;
    } else if |items| == 1 {
      assert Spliced(indent, items) == [indent + items[0]];
    } else {
      var head := indent + items[0];
      var rest := Spliced(indent, items[1..]);
      var joined := Str.Join(items[1..], "\n" + indent);
      SplicedText(indent, items[1..]);
      assert Spliced(indent, items) == [head] + rest;
      Str.JoinCons(head, rest, "\n");
      assert Str.Join(items, "\n" + indent) == items[0] + ("\n" + indent) + joined;
      SplicedRegroup(indent, items[0], "\n", joined);
    }
  }

  /** One more item in front of a slot's text: the indent moves past the separator. */
  lemma SplicedRegroup<T>(indent: seq<T>, item: seq<T>, sep: seq<T>, joined: seq<T>)
    ensures indent + item + sep + (indent + joined) == indent + (item + (sep + indent) + joined)
  {
  }

  /** The one-element list `[x]` when `c` holds, else nothing: a conditional `push`. */
  function Opt<T>(c: bool, x: T): (r: seq<T>)
    ensures c ==> r == [x]
    ensures !c ==> r == []
  {
    if c then [x] else []
  }

  /** JavaScript truthiness of an optional string: present and not empty. */
  predicate HasText(s: Option<string>)
  {
    s.Some? && s.value != ""
  }

  /** JavaScript truthiness of an optional number: present and not zero. */
  predicate HasNumber(n: Option<int>)
  {
    n.Some? && n.value != 0
  }

  /** An optional boolean parameter tested with `if (flag)`. */
  predicate IsSet(b: Option<bool>)
  {
    b == Some(true)
  }

  /** `${n}` for an integer. */
  function Num(n: int): string
  {
    Str.IntToString(n)
  }

  /** `${b}` for a boolean. */
  function Bool(b: bool): string
  {
    Str.BoolToString(b)
  }

  /** `JSON.stringify(rows)` for a two-dimensional array. */
  function Matrix(rows: seq<seq<Json.Json>>): string
  {
    Json.Stringify(Json.JArr(seq(|rows|, k requires 0 <= k < |rows| => Json.JArr(rows[k]))))
  }

  /** `JSON.stringify(row)` for a one-dimensional array. */
  function Row(row: seq<Json.Json>): string
  {
    Json.Stringify(Json.JArr(row))
  }

  /** `params.values ? JSON.stringify([params.values]) : 'null'`: the row as a one-row matrix. */
  function RowValues(values: Option<seq<Json.Json>>): (r: string)
    ensures values.Some? ==> r == Matrix([values.value])
    ensures values.None? ==> r == "null"
  {
    match values
    case Some(v) => Matrix([v])
    case None => "null"
  }

  /** `params.values ? JSON.stringify(params.values) : 'null'`: the column as a flat array. */
  function ColumnValues(values: Option<seq<Json.Json>>): (r: string)
    ensures values.Some? ==> r == Row(values.value)
    ensures values.None? ==> r == "null"
  {
    match values
    case Some(v) => Row(v)
    case None => "null"
  }

  /** A row is sent as the flat array a column would be, wrapped in one more pair of brackets. */
  lemma RowIsWrappedColumn(values: Option<seq<Json.Json>>)
    ensures values.Some? ==> RowValues(values) == "[" + ColumnValues(values) + "]"
    ensures values.None? ==> RowValues(values) == ColumnValues(values)
  {
    if values.Some? {
      var v := values.value;
      var outer := Json.JArr(seq(1, k requires 0 <= k < 1 => Json.JArr([v][k])));
      assert outer == Json.JArr([Json.JArr(v)]);
      assert Json.StringifyItems(outer, [Json.JArr(v)]) == Json.Stringify(Json.JArr(v));
    }
  }

  /** Every spliced item appears in the code, wherever the slot sits. */
  lemma SplicedItem(pre: seq<string>, indent: string, items: seq<string>, post: seq<string>, k: nat)
    requires k < |items|
    ensures Str.Contains(Code(pre + Spliced(indent, items) + post), items[k])
  {
    var lines := pre + Spliced(indent, items) + post;
    assert lines[|pre| + k] == indent + items[k];
    HasTail(lines, |pre| + k, indent, items[k]);
  }
}
