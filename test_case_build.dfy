/**
 * The test-case half of tests/office-skills/scripts/generate-test-cases.ts:
 * each template parsed from a host's TOOLS.md becomes a test case with an
 * id, a prompt looked up in a fixed table, an expected behaviour, four
 * validation steps and a priority.
 */
module TestCaseBuild {
  import opened Wrappers
  import Str
  import Analyzer
  import opened TestTypes
  import opened TestCaseGen

  // ---------------------------------------------------------------------------
  // Ids: `${hostType}-${String(index + 1).padStart(3, '0')}-${slug}`
  // ---------------------------------------------------------------------------

  /** `String(index + 1).padStart(3, '0')` */
  function Number(index: nat): (r: string)
    ensures |r| >= 3
    ensures forall i :: 0 <= i < |r| ==> Str.IsDigit(r[i])
  {
    var digits := Str.NatToString(index + 1);
    if |digits| >= 3 then digits else Str.PadZero(digits, 3)
  }

  lemma {:induction false} ParseZeros(k: nat, s: string)
    requires |s| > 0 && forall i :: 0 <= i < |s| ==> Str.IsDigit(s[i])
    ensures forall i :: 0 <= i < |Str.Repeat('0', k) + s| ==> Str.IsDigit((Str.Repeat('0', k) + s)[i])
    ensures Str.ParseNat(Str.Repeat('0', k) + s) == Str.ParseNat(s)
  {
    var z := Str.Repeat('0', k);
    var t := z + s;
    assert forall i :: 0 <= i < |t| ==> Str.IsDigit(t[i]) by {
      forall i | 0 <= i < |t| ensures Str.IsDigit(t[i]) {
        if i >= k {
          assert t[i] == s[i - k];
        }
      }
    }
    if |s| == 1 {
      if k > 0 {
        ParseOnlyZeros(k);
        assert t[..|t| - 1] == z;
      } else {
        assert t == s;
      }
    } else {
      ParseZeros(k, s[..|s| - 1]);
      assert t[..|t| - 1] == z + s[..|s| - 1];
    }
  }

  lemma {:induction false} ParseOnlyZeros(k: nat)
    requires k > 0
    ensures Str.ParseNat(Str.Repeat('0', k)) == 0
  {
    var z := Str.Repeat('0', k);
    if k > 1 {
      assert z[..k - 1] == Str.Repeat('0', k - 1);
      ParseOnlyZeros(k - 1);
    }
  }

  /** The zero-padded number reads back as the one-based position. */
  lemma NumberReadsBack(index: nat)
    ensures Str.ParseNat(Number(index)) == index + 1
  {
    var digits := Str.NatToString(index + 1);
    Str.NatToStringRoundTrip(index + 1);
    if |digits| < 3 {
      ParseZeros(3 - |digits|, digits);
    }
  }

  /** `.replace(/\s+/g, '-')`: every run of white space becomes one dash. */
  function Dashed(s: string): (r: string)
    ensures |r| <= |s|
    ensures forall i :: 0 <= i < |r| ==> !Str.IsWs(r[i])
    decreases |s|
  {
    if s == [] then []
    else if Str.IsWs(s[0]) then "-" + Dashed(Str.TrimStart(s[1..]))
    else [s[0]] + Dashed(s[1..])
  }

  /** A name without white space is its own slug. */
  lemma {:induction false} DashedPlain(s: string)
    requires forall i :: 0 <= i < |s| ==> !Str.IsWs(s[i])
    ensures Dashed(s) == s
    decreases |s|
  {
    if s != [] {
      DashedPlain(s[1..]);
    }
  }

  /** `template.name.toLowerCase().replace(/\s+/g, '-')` */
  function Slug(name: string): string
  {
    Dashed(Str.ToLower(name))
  }

  function TestId(host: Host, index: nat, name: string): string
  {
    HostName(host) + "-" + Number(index) + "-" + Slug(name)
  }

  lemma NumberNoDash(index: nat)
    ensures Analyzer.NoDash(Number(index))
  {
  }

  lemma HostNoDash(host: Host)
    ensures Analyzer.NoDash(HostName(host))
  {
  }

  /**
   * The error analyzer's `extractCategory` reads a generated id back as the
   * slug of the template name, not as the template's category.
   */
  lemma TestIdCategory(host: Host, index: nat, name: string)
    ensures Analyzer.ExtractCategory(TestId(host, index, name)) == Slug(name)
  {
    NumberNoDash(index);
    HostNoDash(host);
    Analyzer.CategoryOfId(HostName(host), Number(index), Slug(name));
  }

  /** The second dash-separated field of an id is its number. */
  lemma IdNumber(host: Host, i: nat, a: string)
    ensures |Str.Split(TestId(host, i, a), "-")| > 1 && Str.Split(TestId(host, i, a), "-")[1] == Number(i)
  {
    var h := HostName(host);
    HostNoDash(host);
    NumberNoDash(i);
    assert TestId(host, i, a) == h + ['-'] + (Number(i) + ['-'] + Slug(a));
    Str.SplitLead(h, '-', Number(i) + ['-'] + Slug(a));
    Str.SplitLead(Number(i), '-', Slug(a));
  }

  /** Ids of different positions differ, whatever the names. */
  lemma TestIdsDistinct(host: Host, i: nat, j: nat, a: string, b: string)
    requires i != j
    ensures TestId(host, i, a) != TestId(host, j, b)
  {
    IdNumber(host, i, a);
    IdNumber(host, j, b);
    NumberReadsBack(i);
    NumberReadsBack(j);
  }

  // ---------------------------------------------------------------------------
  // Prompts: `inputs[`${hostType}:${name}`] || inputs[name] || `执行 ${name} 操作``
  // ---------------------------------------------------------------------------

  /** An object literal given as its entries in source order. */
  type Record = seq<(string, string)>

  /** `record[key]`: a later entry with the same key overwrites an earlier one. */
  function Get(rec: Record, key: string): (r: Option<string>)
    ensures r.None? <==> forall j :: 0 <= j < |rec| ==> rec[j].0 != key
  {
    if |rec| == 0 then None
    else if rec[|rec| - 1].0 == key then Some(rec[|rec| - 1].1)
    else Get(rec[..|rec| - 1], key)
  }

  /** The value of a key is the one its last entry gives. */
  lemma {:induction false} GetLast(rec: Record, i: nat, key: string)
    requires i < |rec| && rec[i].0 == key
    requires forall j :: i < j < |rec| ==> rec[j].0 != key
    ensures Get(rec, key) == Some(rec[i].1)
  {
    if i < |rec| - 1 {
      GetLast(rec[..|rec| - 1], i, key);
    }
  }

  /** Entries appended to a record overwrite the keys they list. */
  lemma {:induction false} GetAppend(a: Record, b: Record, key: string)
    ensures Get(a + b, key) == if Get(b, key).Some? then Get(b, key) else Get(a, key)
  {
    if |b| > 0 {
      var front := b[..|b| - 1];
      assert (a + b)[..|a + b| - 1] == a + front;
      GetAppend(a, front, key);
    } else {
      assert a + b == a;
    }
  }

  /** The record without the entries of one key. */
  function Without(rec: Record, k: string): (r: Record)
    ensures forall j :: 0 <= j < |r| ==> r[j].0 != k && r[j] in rec
  {
    if |rec| == 0 then []
    else Without(rec[..|rec| - 1], k) + (if rec[|rec| - 1].0 == k then [] else [rec[|rec| - 1]])
  }

  /** Removing one key leaves every other lookup as it was. */
  lemma {:induction false} GetWithout(rec: Record, k: string, key: string)
    requires k != key
    ensures Get(Without(rec, k), key) == Get(rec, key)
  {
    if |rec| > 0 {
      var front, last := rec[..|rec| - 1], rec[|rec| - 1];
      GetWithout(front, k, key);
      if last.0 != k {
        assert (Without(front, k) + [last])[..|Without(front, k)|] == Without(front, k);
      } else {
        assert Without(rec, k) == Without(front, k);
      }
    }
  }

  /** `record[key]` is truthy: present, and not the empty string. */
  predicate Truthy(rec: Record, key: string)
  {
    Get(rec, key).Some? && Get(rec, key).value != ""
  }

  /**
   * The prompt lookup over a table, with `prefix` the host part of the
   * host-specific key: that key, else the bare name, else a generic prompt.
   */
  function UserInputIn(rec: Record, prefix: string, name: string): (r: string)
    ensures r != ""
  {
    var hostKey := prefix + ":" + name;
    if Truthy(rec, hostKey) then Get(rec, hostKey).value
    else if Truthy(rec, name) then Get(rec, name).value
    else "执行 " + name + " 操作"
  }

  /** A name neither key of which the table lists gets the generic prompt. */
  lemma UnlistedPrompt(rec: Record, prefix: string, name: string)
    requires forall j :: 0 <= j < |rec| ==> rec[j].0 != prefix + ":" + name && rec[j].0 != name
    ensures UserInputIn(rec, prefix, name) == "执行 " + name + " 操作"
  {
  }

  /** The host-specific entry wins over the bare name. */
  lemma HostKeyFirst(rec: Record, prefix: string, name: string, i: nat)
    requires i < |rec| && rec[i].0 == prefix + ":" + name && rec[i].1 != ""
    requires forall j :: i < j < |rec| ==> rec[j].0 != prefix + ":" + name
    ensures UserInputIn(rec, prefix, name) == rec[i].1
  {
    GetLast(rec, i, prefix + ":" + name);
  }

  /**
   * The prompt table of `generateUserInput`, in source order: the Excel
   * entries, then the Word entries (among them the `ppt:` ones), then the
   * PowerPoint entries. A name listed more than once keeps the value listed
   * last, as in an object literal.
   */
  const Inputs: Record := ExcelInputs + WordInputs + PowerPointInputs

  /** The entries under the Excel headings. */
  const ExcelInputs: Record := [
    ("创建工作表", "创建一个名为 NewSheet 的工作表"),
    ("创建工作表（带验证）", "创建一个名为 NewSheet 的工作表，如果已存在则使用现有的"),
    ("重命名工作表", "将当前工作表重命名为 RenamedSheet"),
    ("删除工作表", "删除名为 SheetToDelete 的工作表"),
    ("删除工作表（带验证）", "检查并删除名为 SheetToDelete 的工作表，如果不存在则给出提示"),
    ("复制工作表", "复制当前工作表"),
    ("单元格值条件格式", "高亮显示所有大于 100 的单元格"),
    ("数据条格式", "为 B 列添加数据条显示"),
    ("图标集格式", "用箭头图标集显示 C 列数据趋势"),
    ("预设条件格式（高于平均值）", "高亮显示高于平均值的单元格"),
    ("前/后N项格式", "高亮显示前 10 名的数据"),
    ("自定义公式条件格式", "用公式设置条件：如果当前单元格大于左边的单元格则显示为绿色"),
    ("监听单元格数据变化", "监听工作表的数据变化，当单元格内容改变时输出日志"),
    ("监听选择区域变化", "监听用户选择的单元格变化"),
    ("工作表激活事件", "监听工作表被激活的事件"),
    ("计算完成事件", "监听工作表计算完成事件"),
    ("添加矩形形状", "在工作表中添加一个蓝色矩形"),
    ("插入图片", "在工作表中插入一张图片"),
    ("添加线条", "添加一条红色箭头线"),
    ("创建文本框", "创建一个包含\"重要提示\"的文本框"),
    ("形状分组", "将 Shape1 和 Shape2 组合为一个组"),
    ("添加单元格备注", "在 A1 单元格添加备注\"这是重要数据\""),
    ("修改备注内容", "修改 A1 单元格的备注内容"),
    ("设置备注可见性", "设置 A1 的备注始终显示"),
    ("删除备注", "删除 A2 单元格的备注"),
    ("复制区域到新位置", "将 A1:C5 复制到 E1"),
    ("复制时跳过空白单元格", "复制 A1:C3 到 D1，跳过空白单元格"),
    ("移动区域", "将 A1:C5 移动到 G1"),
    ("插入单元格", "在 B2 插入单元格，其他单元格向下移动"),
    ("删除单元格", "删除 C3:C5，其他单元格向上移动"),
    ("清除区域内容", "清除 A1:D10 区域的所有内容"),
    ("删除重复值", "删除 A1:B20 区域中基于第1和第2列的重复行"),
    ("行列分组", "对第 2 到第 5 行进行分组"),
    ("取消分组", "取消第 2 到第 5 行的分组"),
    ("添加复选框", "将 B2:B10 的布尔值转换为复选框"),
    ("读取复选框状态", "读取 B2:B10 复选框的选中状态"),
    ("移除复选框", "移除 B2:B10 的复选框，还原为布尔值"),
    ("读取选中区域", "读取当前选中的单元格数据"),
    ("读取指定区域", "读取 A1:D10 区域的数据"),
    ("读取多个不连续区域", "读取 B3, F3, J3 这三个单元格的值"),
    ("读取多个不连续区域（重要！）", "分别读取 B3, F3, J3 这三个单元格的值"),
    ("写入单个值", "在 A1 单元格写入数字 100"),
    ("写入数组数据", "在 A1:C3 区域写入示例数据"),
    ("写入多个不连续区域", "在 B3, F3, J3 单元格分别写入 10, 20, 30"),
    ("excel:创建表格", "将 A1:D10 区域创建为表格"),
    ("创建表格", "创建一个名为 SalesTable 的表格，包含 Date, Product, Category, Amount 列"),
    ("排序表格", "按第四列 Amount 降序排序 SalesTable 表格"),
    ("筛选表格", "筛选 SalesTable 表格第三列 Category 为 Electronics 的数据"),
    ("创建透视表", "基于 A1:D5 数据在 F1 位置创建数据透视表，按 Category 和 Product 汇总 Amount"),
    ("添加列层次结构和筛选器", "为 PivotTable1 添加 Region 列字段和 Category 筛选字段"),
    ("数据透视表日期筛选", "筛选 PivotTable1 的日期字段，只显示 2020-08-01 之后的数据"),
    ("数据透视表标签筛选", "筛选 PivotTable1 的 Category 字段，排除以\"电子\"开头的项"),
    ("数据透视表数值筛选", "筛选 PivotTable1 的 Product 字段，只显示 Amount 大于 500 的项"),
    ("清除透视表筛选器", "清除 PivotTable1 所有字段的筛选器"),
    ("创建切片器", "为 PivotTable1 创建一个 Category 字段的切片器"),
    ("使用切片器筛选", "使用类别切片器筛选\"电子产品\"、\"家居用品\"、\"服装\""),
    ("切换透视表布局", "将 PivotTable1 的布局切换为大纲格式"),
    ("获取透视表数据", "获取 PivotTable1 的数据区域和值"),
    ("格式化透视表", "格式化 PivotTable1，设置空单元格显示\"--\"，数据右对齐"),
    ("刷新透视表", "刷新 PivotTable1 的数据"),
    ("删除透视表", "删除 PivotTable1"),
    ("创建柱状图", "基于 A1:B10 数据创建柱状图"),
    ("创建折线图", "基于 A1:B10 数据创建折线图"),
    ("柱状图", "基于 A1:B10 数据创建标题为\"数据分析图表\"的柱状图"),
    ("折线图", "基于 A1:B10 数据创建标题为\"趋势分析\"的折线图"),
    ("设置数值验证", "限制 B2:B10 单元格只能输入大于 0 的整数"),
    ("设置下拉列表", "为 C2:C10 单元格设置下拉列表：选项1、选项2、选项3"),
    ("添加批注", "在 A1 单元格添加批注\"这是一个批注。\""),
    ("创建命名区域", "将 A1:B10 区域命名为 MyData")
  ]

  /** The entries under the Word headings. */
  const WordInputs: Record := [
    ("读取选中文本", "读取当前选中的文本内容"),
    ("读取整个文档", "读取整个文档的文本内容"),
    ("读取文档段落", "读取文档所有段落的内容"),
    ("在选中位置插入文本", "在当前选中的位置插入文本\"Hello World\""),
    ("在文档末尾插入段落", "在文档末尾插入一个新段落\"这是新的段落内容\""),
    ("插入多行文本（推荐）", "在文档末尾插入三行文本：第一行是\"项目概述\"，第二行是\"这是一个示例项目\"，第三行是\"预计完成时间：2026年2月\""),
    ("在特定位置插入内容", "在文档开头插入\"开头内容\"，在末尾插入\"末尾内容\""),
    ("插入 Base64 图片", "在文档末尾插入一张 400x300 的图片（使用 Base64 编码）"),
    ("创建列表", "创建一个包含\"项目1\"、\"项目2\"、\"项目3\"的项目符号列表"),
    ("插入表格", "创建一个 3 行 4 列的表格，包含标题和数据"),
    ("读取表格数据", "读取文档中第一个表格的所有数据"),
    ("创建内容控件", "将选中内容创建为标题为\"客户名称\"的内容控件"),
    ("读取/更新内容控件", "查找标签为 CustomerName 的内容控件，并将其内容更新为\"Contoso Ltd.\""),
    ("修改页眉", "在文档页眉中添加红色居中的文本\"机密文件 - 仅供内部使用\""),
    ("设置文本格式", "将选中文本设置为微软雅黑、12号、加粗、深灰色"),
    ("设置段落格式", "设置所有段落为 1.5 倍行距、段后 10 磅间距、两端对齐"),
    ("简单替换", "把文档中所有的\"旧版本\"替换成\"新版本\"，不区分大小写"),
    ("高级搜索（通配符）", "搜索所有以 to 开头以 n 结尾的单词，并用黄色高亮显示"),
    ("word:创建表格", "创建一个 3 行 4 列的表格"),
    ("word:插入文本", "在光标位置插入文本\"Hello World\""),
    ("word:插入段落", "在文档末尾插入新段落"),
    ("word:插入图片", "插入一张图片"),
    ("插入当前日期字段", "在光标位置插入当前日期字段，格式为\"月/日/年\""),
    ("创建目录字段", "在文档开头插入目录"),
    ("插入超链接字段", "插入一个指向微软官网的超链接"),
    ("插入页码字段", "插入页码"),
    ("Addin字段（存储插件数据）", "创建一个用于存储插件自定义数据的 Addin 字段"),
    ("更新字段内容", "更新文档中所有日期字段"),
    ("插入脚注", "在选中位置插入脚注\"参考文献1\""),
    ("插入尾注", "在选中位置插入尾注\"附录A\""),
    ("读取脚注内容", "搜索并统计文档中的脚注数量"),
    ("应用标题1样式", "将选中段落应用标题1样式"),
    ("应用标题样式（使用枚举）", "将选中段落应用标题2样式"),
    ("应用引用样式", "将选中段落应用引用块样式"),
    ("批量应用样式", "查找所有包含\"重要\"的段落，应用强调样式"),
    ("获取并应用现有样式", "获取第一个段落的样式，应用到选中区域"),
    ("插入语法批注", "为选中段落添加语法建议批注"),
    ("读取段落批注", "读取选中段落的所有批注"),
    ("注册批注事件", "监听批注被点击的事件"),
    ("删除批注", "删除选中段落的所有批注"),
    ("读取整个文档", "读取整个文档的文本内容"),
    ("读取文档段落", "读取文档所有段落的内容"),
    ("在选中位置插入文本", "在当前选中的位置插入文本\"Hello World\""),
    ("在文档末尾插入段落", "在文档末尾插入一个新段落\"这是新的段落内容\""),
    ("插入多行文本（推荐）", "在文档末尾插入三行文本：第一行是\"项目概述\"，第二行是\"这是一个示例项目\"，第三行是\"预计完成时间：2026年2月\""),
    ("在特定位置插入内容", "在文档开头插入\"开头内容\"，在末尾插入\"末尾内容\""),
    ("插入 Base64 图片", "在文档末尾插入一张 400x300 的图片（使用 Base64 编码）"),
    ("创建列表", "创建一个包含\"项目1\"、\"项目2\"、\"项目3\"的项目符号列表"),
    ("插入表格", "创建一个 3 行 4 列的表格，包含标题和数据"),
    ("读取表格数据", "读取文档中第一个表格的所有数据"),
    ("创建内容控件", "将选中内容创建为标题为\"客户名称\"的内容控件"),
    ("读取/更新内容控件", "查找标签为 CustomerName 的内容控件，并将其内容更新为\"Contoso Ltd.\""),
    ("修改页眉", "在文档页眉中添加红色居中的文本\"机密文件 - 仅供内部使用\""),
    ("ppt:设置文本格式", "将选中文本设置为微软雅黑、12号、加粗、深灰色"),
    ("ppt:设置段落格式", "设置所有段落为 1.5 倍行距、段后 10 磅间距、两端对齐"),
    ("ppt:简单替换", "把文档中所有的\"旧版本\"替换成\"新版本\"，不区分大小写"),
    ("ppt:高级搜索（通配符）", "搜索所有以 to 开头以 n 结尾的单词，并用黄色高亮显示"),
    ("ppt:创建表格", "创建一个 3 行 4 列的表格"),
    ("ppt:插入文本", "在光标位置插入文本\"Hello World\""),
    ("ppt:插入段落", "在文档末尾插入新段落"),
    ("ppt:插入图片", "插入一张图片")
  ]

  /** The entries under the PowerPoint headings. */
  const PowerPointInputs: Record := [
    ("添加幻灯片", "添加一张新的空白幻灯片"),
    ("删除幻灯片", "删除当前幻灯片"),
    ("添加文本框", "添加一个包含标题的文本框"),
    ("添加矩形", "添加一个蓝色矩形"),
    ("设置文本粗体和斜体", "将第一个形状的文本设置为粗体和斜体"),
    ("设置字体名称和大小", "将第一个形状的字体设置为微软雅黑 24 号"),
    ("文本垂直居中", "将第一个形状的文本垂直居中对齐"),
    ("设置文本框边距", "设置第一个形状的文本框边距为上下5点、左右10点"),
    ("设置文本自动适应", "设置第一个形状的文本自动缩小以适应形状"),
    ("获取幻灯片布局信息", "获取当前幻灯片的布局和母版名称"),
    ("使用指定布局创建幻灯片", "使用第一张幻灯片的布局创建新幻灯片"),
    ("获取所有可用布局", "列出所有可用的幻灯片布局"),
    ("使用主题颜色填充形状", "用主题强调色1填充第一个形状"),
    ("使用多种主题颜色", "创建3个矩形，分别使用主题强调色1、2、3"),
    ("读取表格数据", "读取第一个表格的所有单元格数据"),
    ("更新表格单元格", "将第一个表格的第一行第一列更新为\"新内容\""),
    ("设置行高和列宽", "设置第一个表格的第一行高度为50点，第一列宽度为150点"),
    ("创建带合并单元格的表格", "创建一个3行4列的表格，第一行的4个单元格合并"),
    ("格式化表格单元格", "将第一个表格的标题行设置为蓝色背景、白色粗体文字")
  ]

  /**
   * The host part of the table's host-specific keys. The table spells the
   * PowerPoint keys `ppt:`, while the host is passed as `powerpoint`.
   */
  function KeyPrefix(host: Host): string
  {
    match host
    case Excel => "excel"
    case Word => "word"
    case PowerPoint => "ppt"
  }

  /** `generateUserInput` as written: the host-specific key uses the host name. */
  function UserInputAsWritten(name: string, host: Host): string
  {
    UserInputIn(Inputs, HostName(host), name)
  }

  /** `generateUserInput` with the host-specific key spelled as the table spells it. */
  function UserInput(name: string, host: Host): (r: string)
    ensures r != ""
  {
    UserInputIn(Inputs, KeyPrefix(host), name)
  }

  /**
   * As written, a `ppt:` entry never affects a PowerPoint prompt: removing it
   * from the table changes nothing.
   */
  lemma PptKeysIgnored(rec: Record, key: string, name: string)
    requires name != "ppt:" + key
    ensures UserInputIn(Without(rec, "ppt:" + key), HostName(PowerPoint), name) == UserInputIn(rec, HostName(PowerPoint), name)
  {
    var k := "ppt:" + key;
    var hostKey := HostName(PowerPoint) + ":" + name;
    assert hostKey[1] == 'o' && k[1] == 'p';
    GetWithout(rec, k, hostKey);
    GetWithout(rec, k, name);
  }

  /** With the prefix the table uses, a `ppt:` entry is what a PowerPoint prompt returns. */
  lemma PptKeysUsed(rec: Record, name: string, i: nat)
    requires i < |rec| && rec[i].0 == "ppt:" + name && rec[i].1 != ""
    requires forall j :: i < j < |rec| ==> rec[j].0 != "ppt:" + name
    ensures UserInputIn(rec, KeyPrefix(PowerPoint), name) == rec[i].1
  {
    assert KeyPrefix(PowerPoint) + ":" + name == "ppt:" + name;
    HostKeyFirst(rec, KeyPrefix(PowerPoint), name, i);
  }

  /** The table does list a `ppt:` prompt for a table template. */
  lemma PptTableEntry()
    ensures Get(WordInputs, "ppt:创建表格") == Some("创建一个 3 行 4 列的表格")
  {
    var key := "ppt:创建表格";
    assert key[0] == 'p';
    assert WordInputs[57] == (key, "创建一个 3 行 4 列的表格");
    GetLast(WordInputs, 57, key);
  }

  /** A name listed several times takes the value listed last. */
  lemma InputsLastWins()
    ensures WordInputs[49] == ("读取表格数据", "读取文档中第一个表格的所有数据")
    ensures Get(Inputs, "读取表格数据") == Some("读取第一个表格的所有单元格数据")
  {
    var key := "读取表格数据";
    assert key[0] == '读';
    assert PowerPointInputs[14] == (key, "读取第一个表格的所有单元格数据");
    GetLast(PowerPointInputs, 14, key);
    GetAppend(ExcelInputs + WordInputs, PowerPointInputs, key);
  }

  // ---------------------------------------------------------------------------
  // Expected behaviour: `behaviors[`${category}:${name}`] || behaviors[name] || `${name} 操作成功完成``
  // ---------------------------------------------------------------------------

  /** The table of `generateExpectedBehavior`. */
  const Behaviors: seq<(string, string)> := [
    ("创建工作表", "新工作表 NewSheet 被创建并激活"),
    ("重命名工作表", "当前工作表名称变为 RenamedSheet"),
    ("删除工作表", "工作表 SheetToDelete 被删除"),
    ("复制工作表", "当前工作表的副本被创建"),
    ("读取选中区域", "返回选中区域的值、地址和格式"),
    ("读取指定区域", "返回 A1:D10 区域的所有数据"),
    ("写入单个值", "A1 单元格显示数字 100"),
    ("Excel 表格:创建表格", "A1:D10 区域被转换为 Excel 表格"),
    ("创建柱状图", "工作表中出现一个柱状图"),
    ("创建透视表", "F1 位置创建了数据透视表"),
    ("插入文本", "文档中出现指定文本"),
    ("Word 文档操作:创建表格", "文档中出现 3x4 表格"),
    ("添加幻灯片", "演示文稿中增加一张新幻灯片"),
    ("添加文本框", "幻灯片中出现文本框")
  ]

  function ExpectedBehaviorIn(rec: Record, category: string, name: string): (r: string)
    ensures r != ""
  {
    var key := category + ":" + name;
    if Truthy(rec, key) then Get(rec, key).value
    else if Truthy(rec, name) then Get(rec, name).value
    else name + " 操作成功完成"
  }

  /** The category-qualified entry wins over the bare name. */
  lemma CategoryKeyFirst(rec: Record, category: string, name: string, i: nat)
    requires i < |rec| && rec[i].0 == category + ":" + name && rec[i].1 != ""
    requires forall j :: i < j < |rec| ==> rec[j].0 != category + ":" + name
    ensures ExpectedBehaviorIn(rec, category, name) == rec[i].1
  {
    GetLast(rec, i, category + ":" + name);
  }

  /** A name neither key of which the table lists gets the generic behaviour. */
  lemma UnlistedBehavior(rec: Record, category: string, name: string)
    requires forall j :: 0 <= j < |rec| ==> rec[j].0 != category + ":" + name && rec[j].0 != name
    ensures ExpectedBehaviorIn(rec, category, name) == name + " 操作成功完成"
  {
  }

  /** `generateExpectedBehavior` */
  function ExpectedBehavior(name: string, category: string): (r: string)
    ensures r != ""
  {
    ExpectedBehaviorIn(Behaviors, category, name)
  }

  /** An Excel table template is expected to turn the range into a table. */
  lemma ExcelTableBehavior()
    ensures ExpectedBehavior("创建表格", "Excel 表格") == "A1:D10 区域被转换为 Excel 表格"
  {
    assert Behaviors[7] == ("Excel 表格:创建表格", "A1:D10 区域被转换为 Excel 表格");
    assert "Excel 表格" + ":" + "创建表格" == "Excel 表格:创建表格";
    CategoryKeyFirst(Behaviors, "Excel 表格", "创建表格", 7);
  }

  // ---------------------------------------------------------------------------
  // Validation steps and priority
  // ---------------------------------------------------------------------------

  /** `generateValidationSteps`: three fixed checks, then one naming the template. */
  const FixedChecks: seq<string> := ["检查代码是否成功生成", "检查代码格式是否正确", "检查代码是否包含必要的 context.sync()"]

  function ValidationSteps(name: string, category: string): (r: seq<string>)
    ensures |r| == 4
    ensures r[..3] == FixedChecks
    ensures Str.Contains(r[3], name)
  {
    var last := "验证 " + name + " 的预期结果";
    Str.ContainsSelf(name);
    Str.ContainsInPrefix(name, " 的预期结果", name);
    Str.ContainsInPrefix(name + " 的预期结果", "验证 ", name);
    assert last == "验证 " + (name + " 的预期结果");
    FixedChecks + [last]
  }

  const HighPriorityCategories: seq<string> := ["工作表管理", "数据读取", "数据写入", "文档读取", "文本插入", "幻灯片操作"]

  const HighPriorityNames: seq<string> := ["创建", "读取", "插入", "添加"]

  /** The priority `determinePriority` promises: high for a listed category or a name with a listed keyword, otherwise medium. */
  predicate IsHighPriority(category: string, name: string)
  {
    category in HighPriorityCategories || exists k :: 0 <= k < |HighPriorityNames| && Str.Contains(name, HighPriorityNames[k])
  }

  /** `determinePriority`: the category check, then the loop over the keywords. */
  method DeterminePriority(category: string, name: string) returns (p: Priority)
    ensures p == High <==> IsHighPriority(category, name)
    ensures p == High || p == Medium
  {
    if category in HighPriorityCategories {
      return High;
    }
    var k := 0;
    while k < |HighPriorityNames|
      invariant 0 <= k <= |HighPriorityNames|
      invariant forall j :: 0 <= j < k ==> !Str.Contains(name, HighPriorityNames[j])
    {
      if Str.Contains(name, HighPriorityNames[k]) {
        return High;
      }
      k := k + 1;
    }
    return Medium;
  }

  // ---------------------------------------------------------------------------
  // The test case
  // ---------------------------------------------------------------------------

  /**
   * The two tables a test case reads. The builders take them as a value, so
   * that what they promise holds for any tables; `FileTables` holds the
   * generator's own.
   */
  datatype Tables = Tables(inputs: Record, behaviors: Record)

  const FileTables := Tables(Inputs, Behaviors)

  /** With the generator's own tables, a case's prompt and behaviour are those of `generateUserInput` and `generateExpectedBehavior`. */
  lemma FileTablesUsed(name: string, category: string, host: Host)
    ensures UserInputIn(FileTables.inputs, KeyPrefix(host), name) == UserInput(name, host)
    ensures ExpectedBehaviorIn(FileTables.behaviors, category, name) == ExpectedBehavior(name, category)
  {
  }

  /** The test case `generateTestCase` builds from a template at a position. */
  function Case(t: CodeTemplate, index: nat, host: Host, tables: Tables): TestCase
  {
    var userInput := UserInputIn(tables.inputs, KeyPrefix(host), t.name);
    TestCase(TestId(host, index, t.name), t.category, t.name, userInput, userInput, Some(t.code),
             ExpectedBehaviorIn(tables.behaviors, t.category, t.name), ValidationSteps(t.name, t.category),
             t.category + " > " + t.name, Some(if IsHighPriority(t.category, t.name) then High else Medium))
  }

  /** What a case promises about its template: every field is drawn from it, and the priority is never low. */
  predicate BuiltFrom(tc: TestCase, t: CodeTemplate, index: nat, host: Host, tables: Tables)
  {
    tc.id == TestId(host, index, t.name)
    && tc.category == t.category && tc.name == t.name
    && tc.userInput == UserInputIn(tables.inputs, KeyPrefix(host), t.name) && tc.userInput != ""
    && tc.description == tc.userInput
    && tc.expectedCode == Some(t.code)
    && tc.expectedBehavior == ExpectedBehaviorIn(tables.behaviors, t.category, t.name) && tc.expectedBehavior != ""
    && tc.validationSteps == ValidationSteps(t.name, t.category)
    && tc.toolsTemplate == t.category + " > " + t.name
    && tc.priority.Some? && tc.priority.value != Low
    && (tc.priority.value == High <==> IsHighPriority(t.category, t.name))
  }

  /** `generateTestCase` */
  method GenerateTestCase(t: CodeTemplate, index: nat, host: Host, tables: Tables) returns (tc: TestCase)
    ensures tc == Case(t, index, host, tables)
  {
    var userInput := UserInputIn(tables.inputs, KeyPrefix(host), t.name);
    var priority := DeterminePriority(t.category, t.name);
    tc := TestCase(TestId(host, index, t.name), t.category, t.name, userInput, userInput, Some(t.code),
                   ExpectedBehaviorIn(tables.behaviors, t.category, t.name), ValidationSteps(t.name, t.category),
                   t.category + " > " + t.name, Some(priority));
  }

  /** Every built case keeps the promises of `generateTestCase`. */
  lemma CaseBuilt(t: CodeTemplate, index: nat, host: Host, tables: Tables)
    ensures BuiltFrom(Case(t, index, host, tables), t, index, host, tables)
  {
  }

  /** `templates.map((template, index) => generateTestCase(template, index, hostType))` as a value. */
  function Cases(templates: seq<CodeTemplate>, host: Host, tables: Tables): (r: seq<TestCase>)
    ensures |r| == |templates|
  {
    if |templates| == 0 then []
    else Cases(templates[..|templates| - 1], host, tables) + [Case(templates[|templates| - 1], |templates| - 1, host, tables)]
  }

  /** The case at each position is built from the template there, with that index. */
  lemma {:induction false} CasesAt(templates: seq<CodeTemplate>, host: Host, tables: Tables, i: nat)
    requires i < |templates|
    ensures Cases(templates, host, tables)[i] == Case(templates[i], i, host, tables)
  {
    var n := |templates| - 1;
    if i < n {
      CasesAt(templates[..n], host, tables, i);
      CasesFront(templates, host, tables, i);
    } else {
      CasesLast(templates, host, tables);
    }
  }

  lemma CasesFront(templates: seq<CodeTemplate>, host: Host, tables: Tables, i: nat)
    requires i < |templates| - 1
    ensures Cases(templates, host, tables)[i] == Cases(templates[..|templates| - 1], host, tables)[i]
    ensures templates[..|templates| - 1][i] == templates[i]
  {
  }

  lemma CasesLast(templates: seq<CodeTemplate>, host: Host, tables: Tables)
    requires |templates| > 0
    ensures Cases(templates, host, tables)[|templates| - 1] == Case(templates[|templates| - 1], |templates| - 1, host, tables)
  {
  }

  lemma CasesStep(templates: seq<CodeTemplate>, host: Host, tables: Tables, i: nat)
    requires i < |templates|
    ensures Cases(templates[..i + 1], host, tables) == Cases(templates[..i], host, tables) + [Case(templates[i], i, host, tables)]
  {
    assert templates[..i + 1][..i] == templates[..i];
  }

  /** `templates.map((template, index) => generateTestCase(template, index, hostType))` */
  method GenerateTestCases(templates: seq<CodeTemplate>, host: Host, tables: Tables) returns (cases: seq<TestCase>)
    ensures cases == Cases(templates, host, tables)
  {
    cases := [];
    var i := 0;
    while i < |templates|
      invariant 0 <= i <= |templates|
      invariant cases == Cases(templates[..i], host, tables)
    {
      var tc := GenerateTestCase(templates[i], i, host, tables);
      CasesStep(templates, host, tables, i);
      cases := cases + [tc];
      i := i + 1;
    }
    assert templates[..|templates|] == templates;
  }

  /** Cases built at their positions have pairwise different ids. */
  lemma IdsDistinct(templates: seq<CodeTemplate>, host: Host, tables: Tables)
    ensures var cases := Cases(templates, host, tables);
      forall i, j :: 0 <= i < j < |cases| ==> cases[i].id != cases[j].id
  {
    var cases := Cases(templates, host, tables);
    forall i, j | 0 <= i < j < |cases| ensures cases[i].id != cases[j].id {
      CasesAt(templates, host, tables, i);
      CasesAt(templates, host, tables, j);
      TestIdsDistinct(host, i, j, templates[i].name, templates[j].name);
    }
  }
}
