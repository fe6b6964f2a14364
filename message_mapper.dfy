/**
 * Mapping of the agent SDK's stream messages to transcript messages, and
 * the text shown for a tool result.  SDK messages arrive as parsed JSON.
 */
module MessageMapper {
  import opened Wrappers
  import Str
  import opened Json
  import opened Chat

  const InitText := "会话已初始化"
  const ToolPrefix := "正在执行: "
  const DefaultErrorText := "执行出错"

  /** A truthy string field, the way `x?.text` is tested before it is shown. */
  function TextOf(v: Option<Json>): (r: Option<string>)
    ensures r.Some? <==> v.Some? && v.value.JStr? && v.value.s != ""
    ensures r.Some? ==> r.value == v.value.s
  {
    match v
    case Some(JStr(s)) => if s != "" then Some(s) else None
    case _ => None
  }

  /** `x?.key`: a member of an optional value. */
  function Field(v: Option<Json>, key: string): Option<Json>
  {
    match v
    case Some(j) => Get(j, key)
    case None => None
  }

  predicate HasType(j: Json, t: string)
  {
    Get(j, "type") == Some(JStr(t))
  }

  /** `items.find(c => c.type === t)`, as the index of the first such item. */
  function FindTyped(items: seq<Json>, t: string, from: nat): (r: Option<nat>)
    requires from <= |items|
    ensures r.Some? ==> from <= r.value < |items| && HasType(items[r.value], t)
    ensures r.Some? ==> forall k :: from <= k < r.value ==> !HasType(items[k], t)
    ensures r.None? ==> forall k :: from <= k < |items| ==> !HasType(items[k], t)
    decreases |items| - from
  {
    if from == |items| then None
    else if HasType(items[from], t) then Some(from)
    else FindTyped(items, t, from + 1)
  }

  /** The `assistant` case: the first text block, else the first tool call. */
  function AssistantMessage(content: Option<Json>): (r: Option<UiMessage>)
    ensures content.None? || !content.value.JArr? || |content.value.items| == 0 ==> r.None?
    ensures r.Some? ==> !r.value.streaming && r.value.content != ""
    ensures r.Some? ==> r.value.role == Assistant || r.value.role == Action
    ensures r.Some? && r.value.role == Action ==>
      var items := content.value.items;
      var i := FindTyped(items, "tool_use", 0);
      i.Some? && Get(items[i.value], "name") != Some(JStr("TodoWrite"))
      && r.value.metadata == Some(NoMetadata.(toolName := Get(items[i.value], "name"), toolInput := Get(items[i.value], "input")))
    ensures content.Some? && content.value.JArr? ==>
      var items := content.value.items;
      var i := FindTyped(items, "text", 0);
      (i.Some? && TextOf(Get(items[i.value], "text")).Some? ==>
         r == Some(UiMessage(Assistant, TextOf(Get(items[i.value], "text")).value, None, false)))
  {
    match content
    case Some(JArr(items)) =>
      if |items| == 0 then None
      else
        var text := FindTyped(items, "text", 0);
        var shown := if text.Some? then TextOf(Get(items[text.value], "text")) else None;
        if shown.Some? then Some(UiMessage(Assistant, shown.value, None, false))
        else
          var tool := FindTyped(items, "tool_use", 0);
          if tool.None? then None
          else
            var name := Get(items[tool.value], "name");
            if name == Some(JStr("TodoWrite")) then None
            else
              var meta := NoMetadata.(toolName := name, toolInput := Get(items[tool.value], "input"));
              Some(UiMessage(Action, ToolPrefix + JsString(name), Some(meta), false))
    case _ => None
  }

  /** The `stream_event` case: text and thinking deltas of a content block. */
  function StreamMessage(event: Option<Json>): (r: Option<UiMessage>)
    ensures r.Some? ==> r.value.streaming && r.value.content != "" && r.value.metadata.None?
    ensures r.Some? ==> (r.value.role == Assistant || r.value.role == Thought)
    ensures r.Some? ==> Field(event, "type") == Some(JStr("content_block_delta"))
    ensures r.Some? && r.value.role == Assistant <==>
      Field(event, "type") == Some(JStr("content_block_delta"))
      && Field(Field(event, "delta"), "type") == Some(JStr("text_delta"))
      && TextOf(Field(Field(event, "delta"), "text")).Some?
  {
    if Field(event, "type") != Some(JStr("content_block_delta")) then None
    else
      var delta := Field(event, "delta");
      var kind := Field(delta, "type");
      var text := TextOf(Field(delta, "text"));
      var thinking := TextOf(Field(delta, "thinking"));
      if kind == Some(JStr("text_delta")) && text.Some? then Some(UiMessage(Assistant, text.value, None, true))
      else if kind == Some(JStr("thinking_delta")) && thinking.Some? then Some(UiMessage(Thought, thinking.value, None, true))
      else None
  }

  /** `errors?.join("\n") || "执行出错"` */
  function ErrorsText(errors: Option<Json>): (r: string)
    ensures r != ""
    ensures (errors.None? || errors == Some(JArr([]))) ==> r == DefaultErrorText
  {
    match errors
    case Some(JArr(items)) =>
      var joined := JoinLines(items);
      if joined == "" then DefaultErrorText else joined
    case _ => DefaultErrorText
  }

  /** `items.join("\n")`, with `null` items empty. */
  function JoinLines(items: seq<Json>): string
  {
    if |items| == 0 then ""
    else
      var head := if items[0].JNull? then "" else JsText(items[0]);
      if |items| == 1 then head else head + "\n" + JoinLines(items[1..])
  }

  /** The `result` case: a successful result, or the joined errors. */
  function ResultMessage(m: Json): (r: Option<UiMessage>)
    ensures r.Some? ==> !r.value.streaming && r.value.content != "" && r.value.metadata.None?
    ensures r.Some? ==> (r.value.role == Assistant || r.value.role == Error)
    ensures Get(m, "subtype") == Some(JStr("success")) && TextOf(Get(m, "result")).Some? ==>
      r == Some(UiMessage(Assistant, TextOf(Get(m, "result")).value, None, false))
    ensures (match Get(m, "subtype") case Some(JStr(s)) => Str.StartsWith(s, "error") case _ => false) ==>
      r == Some(UiMessage(Error, ErrorsText(Get(m, "errors")), None, false))
    ensures r.None? <==>
      !(Get(m, "subtype") == Some(JStr("success")) && TextOf(Get(m, "result")).Some?)
      && !(match Get(m, "subtype") case Some(JStr(s)) => Str.StartsWith(s, "error") case _ => false)
  {
    var subtype := Get(m, "subtype");
    var result := TextOf(Get(m, "result"));
    if subtype == Some(JStr("success")) && result.Some? then
      assert "success"[0] != "error"[0]; assert !Str.StartsWith("success", "error");
      Some(UiMessage(Assistant, result.value, None, false))
    else match subtype
      case Some(JStr(s)) =>
        if Str.StartsWith(s, "error") then Some(UiMessage(Error, ErrorsText(Get(m, "errors")), None, false))
        else None
      case _ => None
  }

  /** `mapSDKMessageToUI`: the transcript message for one SDK message, if it shows one. */
  function MapSdkMessage(m: Json): (r: Option<UiMessage>)
    ensures r.Some? ==> r.value.content != ""
    ensures r.Some? ==> (r.value.streaming <==> HasType(m, "stream_event"))
    ensures r.Some? ==> r.value.role in {Status, Assistant, Action, Thought, Error}
    ensures HasType(m, "system") ==>
      r == (if Get(m, "subtype") == Some(JStr("init")) then Some(UiMessage(Status, InitText, None, false)) else None)
    ensures !HasType(m, "system") && !HasType(m, "assistant") && !HasType(m, "stream_event") && !HasType(m, "result") ==> r.None?
  {
    if HasType(m, "system") then
      if Get(m, "subtype") == Some(JStr("init")) then Some(UiMessage(Status, InitText, None, false)) else None
    else if HasType(m, "assistant") then AssistantMessage(Field(Get(m, "message"), "content"))
    else if HasType(m, "stream_event") then StreamMessage(Get(m, "event"))
    else if HasType(m, "result") then ResultMessage(m)
    else None
  }

  /** `formatToolResult`; `None` is `undefined`. */
  function FormatToolResult(result: Option<Json>): (r: string)
    ensures result.Some? && result.value.JStr? ==> r == result.value.s
    ensures result.Some? && result.value.JObj? && Truthy(Field(result, "error").GetOr(JNull)) ==>
      r == "错误: " + JsString(Field(result, "error"))
    ensures result.Some? && result.value.JObj? && !Truthy(Field(result, "error").GetOr(JNull)) && Field(result, "success").Some? ==>
      r == if Truthy(Field(result, "success").value) then "执行成功" else "执行失败"
    ensures result.Some? && (result.value.JArr? || (result.value.JObj? && !Truthy(Field(result, "error").GetOr(JNull)) && Field(result, "success").None?)) ==>
      r == PrettyPrint(result.value)
    ensures result.None? || result.value.JNull? || result.value.JBool? || result.value.JNum? ==> r == JsString(result)
  {
    match result
    case Some(JStr(s)) => s
    case Some(JObj(ms)) =>
      var error := Lookup(ms, "error");
      var success := Lookup(ms, "success");
      if error.Some? && Truthy(error.value) then "错误: " + JsString(error)
      else if success.Some? then (if Truthy(success.value) then "执行成功" else "执行失败")
      else PrettyPrint(result.value)
    case Some(JArr(_)) => PrettyPrint(result.value)
    case _ => JsString(result)
  }
}
