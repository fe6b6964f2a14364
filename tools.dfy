/**
 * The tool tables offered per Office host, and the lookup of a tool's
 * display description.
 */
module Tools {
  import Str

  datatype Tool = Tool(name: string, description: string)

  const ExcelTools: seq<Tool> := [
    Tool("office_excel_read_range", "读取 Excel 单元格区域"),
    Tool("office_excel_write_range", "写入 Excel 单元格区域"),
    Tool("office_excel_get_selection", "获取当前选中区域"),
    Tool("office_excel_create_chart", "创建图表"),
    Tool("office_excel_add_formula", "添加公式"),
    Tool("office_excel_format_cells", "格式化单元格")
  ]

  const WordTools: seq<Tool> := [
    Tool("office_word_read_document", "读取 Word 文档内容"),
    Tool("office_word_insert_text", "插入文本"),
    Tool("office_word_insert_paragraph", "插入段落"),
    Tool("office_word_insert_table", "插入表格"),
    Tool("office_word_format_text", "格式化文本"),
    Tool("office_word_search_replace", "搜索替换")
  ]

  const PowerPointTools: seq<Tool> := [
    Tool("office_ppt_get_slides", "获取幻灯片列表"),
    Tool("office_ppt_add_slide", "添加幻灯片"),
    Tool("office_ppt_delete_slide", "删除幻灯片"),
    Tool("office_ppt_add_text", "添加文本框"),
    Tool("office_ppt_add_shape", "添加形状"),
    Tool("office_ppt_add_image", "添加图片")
  ]

  const CommonTools: seq<string> := ["execute_python_code", "create_chart", "describe_data"]

  function Names(tools: seq<Tool>): (r: seq<string>)
    ensures |r| == |tools|
    ensures forall k :: 0 <= k < |r| ==> r[k] == tools[k].name
  {
    if tools == [] then [] else [tools[0].name] + Names(tools[1..])
  }

  /** `hostTools[hostType] || []` */
  function HostTools(hostType: string): seq<Tool>
  {
    if hostType == "excel" then ExcelTools
    else if hostType == "word" then WordTools
    else if hostType == "powerpoint" then PowerPointTools
    else []
  }

  /** The names `common`, then the names of `tools` in order. */
  function NamesAfter(common: seq<string>, tools: seq<Tool>): (r: seq<string>)
    ensures |r| == |common| + |tools|
    ensures r[..|common|] == common
    ensures forall k :: 0 <= k < |tools| ==> r[|common| + k] == tools[k].name
  {
    common + Names(tools)
  }

  /** `getToolsForHost`: the common tools, then the host's own, in table order. */
  function ToolsForHost(hostType: string): (r: seq<string>)
    ensures |r| == |CommonTools| + |HostTools(hostType)|
    ensures r[..|CommonTools|] == CommonTools
    ensures forall k :: 0 <= k < |HostTools(hostType)| ==> r[|CommonTools| + k] == HostTools(hostType)[k].name
  {
    NamesAfter(CommonTools, HostTools(hostType))
  }

  /** Each known host adds its six tools; any other host type gets the common tools alone. */
  lemma ToolsPerHost(hostType: string)
    ensures hostType in {"excel", "word", "powerpoint"} ==> |ToolsForHost(hostType)| == 9
    ensures hostType !in {"excel", "word", "powerpoint"} ==> ToolsForHost(hostType) == CommonTools
  {
  }

  predicate AllPrefixed(tools: seq<Tool>, prefix: string)
  {
    forall k :: 0 <= k < |tools| ==> Str.StartsWith(tools[k].name, prefix)
  }

  /** Each host table has six entries named with the host's prefix. */
  lemma ExcelTableShape()
    ensures |ExcelTools| == 6 && AllPrefixed(ExcelTools, "office_excel_")
  {
  }

  lemma WordTableShape()
    ensures |WordTools| == 6 && AllPrefixed(WordTools, "office_word_")
  {
  }

  lemma PowerPointTableShape()
    ensures |PowerPointTools| == 6 && AllPrefixed(PowerPointTools, "office_ppt_")
  {
  }

  const AllTools: seq<Tool> := ExcelTools + WordTools + PowerPointTools

  /** `allTools.find(t => t.name === toolName)`, from position `from` on. */
  function FindTool(tools: seq<Tool>, name: string, from: nat): (r: int)
    requires from <= |tools|
    ensures from <= r <= |tools|
    ensures r < |tools| ==> tools[r].name == name
    ensures forall k :: from <= k < r ==> tools[k].name != name
    decreases |tools| - from
  {
    if from == |tools| then |tools|
    else if tools[from].name == name then from
    else FindTool(tools, name, from + 1)
  }

  /** Every tool has a description. */
  lemma DescriptionsPresent()
    ensures forall k :: 0 <= k < |AllTools| ==> AllTools[k].description != ""
  {
    assert forall t :: t in AllTools ==> |t.description| > 0;
  }

  /** `getToolDescription`: the description of the first tool with the name, otherwise the name itself. */
  function ToolDescription(name: string): (r: string)
    ensures (forall t :: t in AllTools ==> t.name != name) ==> r == name
    ensures forall k :: (0 <= k < |AllTools| && AllTools[k].name == name
                         && (forall j :: 0 <= j < k ==> AllTools[j].name != name)) ==> r == AllTools[k].description
  {
    var i := FindTool(AllTools, name, 0);
    assert i < |AllTools| ==> AllTools[i].description != "" by {
      DescriptionsPresent();
    }
    if i < |AllTools| && AllTools[i].description != "" then AllTools[i].description else name
  }
}
