/**
 * The fix-hint table for Office.js error types, the fix-hint text built from
 * it, and the two rule sets that turn an execution error (and the failed
 * code) into likely causes and concrete code suggestions.
 */
module ErrorPatterns {
  import opened Wrappers
  import Str
  import CodeExecutor
  import Complexity

  type ErrorType = CodeExecutor.ErrorType

  /** `ErrorPattern`: a one-line hint, solution examples and, optionally, common causes. */
  datatype ErrorPattern = ErrorPattern(hint: string, examples: seq<string>, commonCauses: Option<seq<string>>)

  /** `ERROR_FIX_HINTS`: one entry per error type, each with five examples and four causes. */
  function Pattern(t: ErrorType): (p: ErrorPattern)
    ensures |p.examples| == 5
    ensures p.commonCauses.Some? && |p.commonCauses.value| == 4
  {
    match t
    case InvalidArgument => InvalidArgumentEntry
    case InvalidReference => InvalidReferenceEntry
    case ApiNotFound => ApiNotFoundEntry
    case GeneralException => GeneralExceptionEntry
    case NetworkError => NetworkErrorEntry
    case UnknownError => UnknownErrorEntry
  }

  const InvalidArgumentEntry: ErrorPattern :=
    ErrorPattern(
      "参数验证失败，检查参数名称、类型和取值范围",
      ["使用正确的 InsertLocation 枚举值（如 'Before'、'After'、'Start'、'End'）",
       "确保单元格地址格式正确（如 'A1'、'B2:D4'）",
       "检查数组索引是否越界",
       "验证参数类型是否匹配（字符串、数字、布尔值）",
       "确保必填参数不为 null 或 undefined"],
      Some(["参数拼写错误", "使用了错误的枚举值", "参数类型不匹配", "缺少必需的参数"]))

  const InvalidReferenceEntry: ErrorPattern :=
    ErrorPattern(
      "引用的对象不存在或无效，需要先检查对象是否存在",
      ["使用 getItemOrNullObject() 代替 getItem()，然后检查 isNullObject",
       "在操作前调用 load() 和 await context.sync()",
       "验证工作表、单元格、命名项是否存在",
       "确保在创建对象后再进行引用",
       "检查名称是否正确（区分大小写）"],
      Some(["引用不存在的工作表或命名范围", "对象已被删除", "名称拼写错误", "在同步前访问对象属性"]))

  const ApiNotFoundEntry: ErrorPattern :=
    ErrorPattern(
      "API 在当前 Office 版本或平台不可用",
      ["使用 Office.context.requirements.isSetSupported() 检查 API 可用性",
       "提供降级方案或替代实现",
       "使用更通用、兼容性更好的 API",
       "检查 Office 版本要求（如需要 Office 2016 或更高版本）",
       "针对不同平台提供不同实现（Web、Desktop、Mac）"],
      Some(["使用了新版本才支持的 API", "在不支持的平台上运行", "API 拼写错误", "缺少必要的权限集"]))

  const GeneralExceptionEntry: ErrorPattern :=
    ErrorPattern(
      "Office.js 内部错误或操作冲突",
      ["简化操作步骤，避免一次性执行过多操作",
       "分批执行，每批后调用 context.sync()",
       "添加适当的延迟（setTimeout）",
       "检查是否有并发操作冲突",
       "确保操作顺序正确（先创建后修改）"],
      Some(["一次加载过多数据", "操作顺序不当", "并发操作冲突", "Office 应用内部状态异常"]))

  const NetworkErrorEntry: ErrorPattern :=
    ErrorPattern(
      "网络连接问题或超时",
      ["检查网络连接是否正常", "增加超时时间", "添加重试逻辑", "减少单次请求的数据量", "使用本地缓存"],
      Some(["网络不稳定", "请求超时", "服务器无响应", "数据量过大"]))

  const UnknownErrorEntry: ErrorPattern :=
    ErrorPattern(
      "未知错误，需要进一步诊断",
      ["检查控制台中的详细错误信息",
       "验证代码语法是否正确",
       "确保所有异步操作都使用了 await",
       "添加 try-catch 捕获具体错误",
       "简化代码逐步定位问题"],
      Some(["JavaScript 语法错误", "未处理的异步操作", "变量未定义", "类型转换错误"]))

  /** `ERROR_FIX_HINTS[errorType]`: exactly the six type names have an entry. */
  function LookupPattern(name: string): (r: Option<ErrorPattern>)
    ensures r.None? ==> forall t: ErrorType :: CodeExecutor.TypeName(t) != name
    ensures forall t: ErrorType :: CodeExecutor.TypeName(t) == name ==> r == Some(Pattern(t))
  {
    match CodeExecutor.ParseTypeName(name)
    case None => None
    case Some(t) =>
      assert forall u: ErrorType :: CodeExecutor.TypeName(u) == name ==> u == t by {
        forall u: ErrorType | CodeExecutor.TypeName(u) == name ensures u == t {
          CodeExecutor.ParseOwnName(u);
        }
      }
      Some(Pattern(t))
  }

  // ---------------------------------------------------------------------------
  // getFixHint
  // ---------------------------------------------------------------------------

  const HintHeading := "## 修复建议"

  /** The text for a type without an entry, line by line. */
  const GenericHintLines: seq<string> := [
    "",
    HintHeading,
    "",
    "未找到针对此错误类型的具体建议，请尝试：",
    "- 检查错误消息中的具体提示",
    "- 查阅 Office.js 文档",
    "- 简化代码逐步定位问题",
    "- 添加更详细的错误处理",
    ""]

  const ProblemLabel := "**问题描述**: "
  const NoCausesLine := "- 参考错误消息中的具体信息"

  /** The six lines in front of the causes. */
  function PatternHead(p: ErrorPattern): seq<string>
  {
    ["", HintHeading, "", ProblemLabel + p.hint, "", "**常见原因**:"]
  }

  function CauseLines(p: ErrorPattern): (r: seq<string>)
    ensures |r| > 0
  {
    match p.commonCauses
    case None => [NoCausesLine]
    case Some(cs) => Str.BlockLines(Str.Prefixed("- ", cs))
  }

  /** The text of a known pattern, line by line. */
  function PatternLines(p: ErrorPattern): seq<string>
  {
    PatternHead(p) + CauseLines(p) + ["", "**解决方案**:"] + Str.BlockLines(Str.Prefixed("- ", p.examples)) + [""]
  }

  /** `getFixHint` */
  function GetFixHint(errorType: string): string
  {
    match LookupPattern(errorType)
    case None => Str.Join(GenericHintLines, "\n")
    case Some(p) => Str.Join(PatternLines(p), "\n")
  }

  lemma ContainsInLine(lines: seq<string>, k: nat, prefix: string, item: string)
    requires k < |lines| && lines[k] == prefix + item
    ensures Str.Contains(Str.Join(lines, "\n"), item)
  {
    Str.JoinContainsPart(lines, "\n", k);
    Str.ContainsSelf(item);
    Str.ContainsInPrefix(item, prefix, item);
    Str.ContainsTransitive(Str.Join(lines, "\n"), lines[k], item);
  }

  /** The text of a pattern holds its hint, every cause and every example. */
  lemma PatternTextComplete(p: ErrorPattern)
    requires |p.examples| > 0
    requires p.commonCauses.Some? ==> |p.commonCauses.value| > 0
    ensures var text := Str.Join(PatternLines(p), "\n");
      && Str.Contains(text, p.hint)
      && (p.commonCauses.Some? ==> forall c :: c in p.commonCauses.value ==> Str.Contains(text, c))
      && (p.commonCauses.None? ==> Str.Contains(text, NoCausesLine))
      && (forall e :: e in p.examples ==> Str.Contains(text, e))
  {
    var lines := PatternLines(p);
    var head := PatternHead(p);
    var causes := CauseLines(p);
    var mid: seq<string> := ["", "**解决方案**:"];
    var ex := Str.BlockLines(Str.Prefixed("- ", p.examples));
    assert lines == head + causes + mid + ex + [""];
    assert lines[3] == ProblemLabel + p.hint;
    ContainsInLine(lines, 3, ProblemLabel, p.hint);
    match p.commonCauses {
      case None =>
        assert lines[6] == "" + NoCausesLine;
        ContainsInLine(lines, 6, "", NoCausesLine);
      case Some(cs) =>
        forall c | c in cs ensures Str.Contains(Str.Join(lines, "\n"), c) {
          var x :| 0 <= x < |cs| && cs[x] == c;
          assert lines[6 + x] == causes[x];
          ContainsInLine(lines, 6 + x, "- ", c);
        }
    }
    forall e | e in p.examples ensures Str.Contains(Str.Join(lines, "\n"), e) {
      var x :| 0 <= x < |p.examples| && p.examples[x] == e;
      assert lines[|head| + |causes| + 2 + x] == ex[x];
      ContainsInLine(lines, |head| + |causes| + 2 + x, "- ", e);
    }
  }

  /** The fix hint of a known type holds its hint, every common cause and every example. */
  lemma FixHintComplete(t: ErrorType)
    ensures var text := GetFixHint(CodeExecutor.TypeName(t));
      && Str.Contains(text, Pattern(t).hint)
      && (forall c :: c in Pattern(t).commonCauses.value ==> Str.Contains(text, c))
      && (forall e :: e in Pattern(t).examples ==> Str.Contains(text, e))
  {
    var p := Pattern(t);
    FixHintKnown(t, p);
    HintText(GetFixHint(CodeExecutor.TypeName(t)), p);
  }

  /** Any name that is not an error type gets the generic text. */
  lemma FixHintUnknown(name: string)
    requires CodeExecutor.ParseTypeName(name).None?
    ensures GetFixHint(name) == Str.Join(GenericHintLines, "\n")
  {
    LookupUnknown(name);
  }

  lemma LookupUnknown(name: string)
    requires CodeExecutor.ParseTypeName(name).None?
    ensures LookupPattern(name).None?
  {
  }

  lemma FixHintKnown(t: ErrorType, p: ErrorPattern)
    requires p == Pattern(t)
    ensures GetFixHint(CodeExecutor.TypeName(t)) == Str.Join(PatternLines(p), "\n")
  {
    CodeExecutor.ParseOwnName(t);
    assert LookupPattern(CodeExecutor.TypeName(t)) == Some(p);
  }

  lemma HintText(text: string, p: ErrorPattern)
    requires text == Str.Join(PatternLines(p), "\n")
    requires |p.examples| > 0 && p.commonCauses.Some? && |p.commonCauses.value| > 0
    ensures Str.Contains(text, p.hint)
    ensures forall c :: c in p.commonCauses.value ==> Str.Contains(text, c)
    ensures forall e :: e in p.examples ==> Str.Contains(text, e)
  {
    PatternTextComplete(p);
  }

  // ---------------------------------------------------------------------------
  // inferErrorCauses
  // ---------------------------------------------------------------------------

  /** The causes the keyword rules can add. */
  datatype RuleCause =
    | ParamName | CellAddress | ParamValue
    | MissingSheet | Uninitialised
    | UnsupportedVersion | PlatformCompat

  function CauseText(c: RuleCause): string
  {
    match c
    case ParamName => "参数名称可能拼写错误或不存在"
    case CellAddress => "单元格地址格式可能不正确"
    case ParamValue => "参数值可能超出允许范围"
    case MissingSheet => "引用的工作表可能不存在"
    case Uninitialised => "对象可能未正确初始化"
    case UnsupportedVersion => "当前 Office 版本可能不支持此 API"
    case PlatformCompat => "需要检查 API 的平台兼容性"
  }

  function CauseTexts(cs: seq<RuleCause>): (r: seq<string>)
    ensures |r| == |cs|
    ensures forall x :: 0 <= x < |cs| ==> r[x] == CauseText(cs[x])
  {
    seq(|cs|, x requires 0 <= x < |cs| => CauseText(cs[x]))
  }

  predicate Mentions(m: string, a: string, b: string)
  {
    Str.Contains(m, a) || Str.Contains(m, b)
  }

  /** The causes the rules add for a type, given the lowercased message. */
  function RuleCauses(t: ErrorType, m: string): seq<RuleCause>
  {
    match t
    case InvalidArgument =>
      (if Mentions(m, "name", "名称") then [ParamName] else [])
      + (if Mentions(m, "range", "地址") then [CellAddress] else [])
      + (if Mentions(m, "value", "值") then [ParamValue] else [])
    case InvalidReference =>
      (if Mentions(m, "worksheet", "工作表") then [MissingSheet] else [])
      + (if Mentions(m, "null", "undefined") then [Uninitialised] else [])
    case ApiNotFound => [UnsupportedVersion, PlatformCompat]
    case _ => []
  }

  /** `ERROR_FIX_HINTS[type]?.commonCauses`, or none. */
  function CommonCauses(t: ErrorType): (r: seq<string>)
    ensures r == Pattern(t).commonCauses.value && |r| == 4
  {
    Pattern(t).commonCauses.GetOr([])
  }

  /** `inferErrorCauses`: the rule causes, or the table's common causes when no rule fired. */
  function InferErrorCauses(e: CodeExecutor.ExecutionError): seq<string>
  {
    var rules := RuleCauses(e.etype, Str.ToLower(e.message));
    if |rules| > 0 then CauseTexts(rules) else CommonCauses(e.etype)
  }

  /** For an invalid argument each keyword group adds its own cause, in the order name, address, value. */
  lemma InferInvalidArgument(e: CodeExecutor.ExecutionError)
    requires e.etype == CodeExecutor.InvalidArgument
    ensures var m := Str.ToLower(e.message);
      var rules := RuleCauses(e.etype, m);
      && (ParamName in rules <==> Mentions(m, "name", "名称"))
      && (CellAddress in rules <==> Mentions(m, "range", "地址"))
      && (ParamValue in rules <==> Mentions(m, "value", "值"))
      && (forall x, y :: 0 <= x < y < |rules| ==> rules[x] != rules[y])
  {
  }

  /** For an invalid reference: one cause for a worksheet mention, one for null or undefined. */
  lemma InferInvalidReference(e: CodeExecutor.ExecutionError)
    requires e.etype == CodeExecutor.InvalidReference
    ensures var m := Str.ToLower(e.message);
      var rules := RuleCauses(e.etype, m);
      && (MissingSheet in rules <==> Mentions(m, "worksheet", "工作表"))
      && (Uninitialised in rules <==> Mentions(m, "null", "undefined"))
      && |rules| <= 2
  {
  }

  /** The rule causes win when any rule fired; otherwise the type's common causes are returned. */
  lemma InferRulesOrCommon(e: CodeExecutor.ExecutionError)
    ensures var rules := RuleCauses(e.etype, Str.ToLower(e.message));
      && (|rules| > 0 ==> InferErrorCauses(e) == CauseTexts(rules))
      && (|rules| == 0 ==> InferErrorCauses(e) == CommonCauses(e.etype))
  {
  }

  /** A missing API always yields exactly its two causes. */
  lemma InferApiNotFound(e: CodeExecutor.ExecutionError)
    requires e.etype == CodeExecutor.ApiNotFound
    ensures InferErrorCauses(e) == [CauseText(UnsupportedVersion), CauseText(PlatformCompat)]
  {
    var rules := RuleCauses(e.etype, Str.ToLower(e.message));
    assert rules == [UnsupportedVersion, PlatformCompat];
  }

  /** The types without rules always get the table's common causes, which are never empty. */
  lemma InferFallback(e: CodeExecutor.ExecutionError)
    requires e.etype in {CodeExecutor.GeneralException, CodeExecutor.NetworkError, CodeExecutor.UnknownError}
    ensures InferErrorCauses(e) == CommonCauses(e.etype)
    ensures |InferErrorCauses(e)| == 4
  {
    assert RuleCauses(e.etype, Str.ToLower(e.message)) == [];
  }

  // ---------------------------------------------------------------------------
  // generateCodeFixSuggestions
  // ---------------------------------------------------------------------------

  datatype Fix =
    | UseOrNullObject | CheckInsertLocation
    | AddLoadSync | CheckExists | AddNullCheck
    | AddSetSupported | CheckApiVersion
    | AddSync | SplitSteps
    | AddTryCatch

  function FixText(f: Fix): string
  {
    match f
    case UseOrNullObject => "考虑使用 getItemOrNullObject() 替代 getItem()"
    case CheckInsertLocation => "检查 InsertLocation 枚举值是否正确（使用 \"Before\"、\"After\" 等字符串）"
    case AddLoadSync => "在访问属性前添加 load() 和 sync()"
    case CheckExists => "使用 getItemOrNullObject() 检查对象是否存在"
    case AddNullCheck => "添加 isNullObject 检查，确保对象有效"
    case AddSetSupported => "添加 isSetSupported() 检查，提供降级方案"
    case CheckApiVersion => "查阅文档确认 API 的版本要求"
    case AddSync => "添加 context.sync() 确保操作同步"
    case SplitSteps => "将复杂操作拆分为多个小步骤"
    case AddTryCatch => "添加 try-catch 错误处理"
  }

  function FixTexts(fs: seq<Fix>): (r: seq<string>)
    ensures |r| == |fs|
    ensures forall x :: 0 <= x < |fs| ==> r[x] == FixText(fs[x])
  {
    seq(|fs|, x requires 0 <= x < |fs| => FixText(fs[x]))
  }

  const LongCode := 500

  /** The suggestions specific to the error type. */
  function TypeFixes(t: ErrorType, code: string): seq<Fix>
  {
    match t
    case InvalidArgument =>
      (if Str.Contains(code, ".getItem(") then [UseOrNullObject] else [])
      + (if Str.Contains(code, "InsertLocation") then [CheckInsertLocation] else [])
    case InvalidReference =>
      (if !Str.Contains(code, ".load(") then [AddLoadSync] else [])
      + (if !Str.Contains(code, "getItemOrNullObject") then [CheckExists] else [])
      + (if !Str.Contains(code, "isNullObject") then [AddNullCheck] else [])
    case ApiNotFound => [AddSetSupported, CheckApiVersion]
    case GeneralException =>
      (if Complexity.SyncCalls(code) == 0 then [AddSync] else [])
      + (if |code| > LongCode then [SplitSteps] else [])
    case _ => []
  }

  predicate HasTryCatch(code: string)
  {
    Str.Contains(code, "try") && Str.Contains(code, "catch")
  }

  /** The suggestions in the order the source pushes them. */
  function CodeFixes(t: ErrorType, code: string): seq<Fix>
  {
    TypeFixes(t, code) + (if !HasTryCatch(code) then [AddTryCatch] else [])
  }

  /** `generateCodeFixSuggestions` */
  function GenerateCodeFixSuggestions(e: CodeExecutor.ExecutionError, code: string): seq<string>
  {
    FixTexts(CodeFixes(e.etype, code))
  }

  /** The try-catch suggestion is present exactly when the code lacks `try` or `catch`, and then it comes last. */
  lemma TryCatchLast(t: ErrorType, code: string)
    ensures AddTryCatch in CodeFixes(t, code) <==> !HasTryCatch(code)
    ensures !HasTryCatch(code) ==> CodeFixes(t, code)[|CodeFixes(t, code)| - 1] == AddTryCatch
    ensures AddTryCatch !in TypeFixes(t, code)
  {
  }

  /** The try-catch text is the text of no other suggestion. */
  lemma TryCatchTextUnique(f: Fix)
    ensures FixText(f) == FixText(AddTryCatch) ==> f == AddTryCatch
  {
    var t := FixText(AddTryCatch);
    assert t[0] == '添' && t[3] == 't';
    match f
    case AddNullCheck => assert FixText(f)[3] == 'i';
    case AddSetSupported => assert FixText(f)[3] == 'i';
    case AddSync => assert FixText(f)[3] == 'c';
    case _ =>
  }

  /**
   * `generateCodeFixSuggestions` gives one text per suggestion; the
   * try-catch advice closes the list exactly when the code lacks `try` or
   * `catch`, and is absent otherwise.
   */
  lemma CodeFixSuggestionsTryCatch(e: CodeExecutor.ExecutionError, code: string)
    ensures var r := GenerateCodeFixSuggestions(e, code);
      && |r| == |CodeFixes(e.etype, code)|
      && (!HasTryCatch(code) ==> |r| > 0 && r[|r| - 1] == FixText(AddTryCatch))
      && (HasTryCatch(code) ==> FixText(AddTryCatch) !in r)
  {
    TryCatchLast(e.etype, code);
    var fs := CodeFixes(e.etype, code);
    var r := GenerateCodeFixSuggestions(e, code);
    if HasTryCatch(code) {
      forall x | 0 <= x < |r| ensures r[x] != FixText(AddTryCatch) {
        assert fs[x] in fs;
        TryCatchTextUnique(fs[x]);
      }
    }
  }

  /** For an invalid reference there is one suggestion per missing marker. */
  lemma InvalidReferenceFixes(code: string)
    ensures var fs := TypeFixes(CodeExecutor.InvalidReference, code);
      && (AddLoadSync in fs <==> !Str.Contains(code, ".load("))
      && (CheckExists in fs <==> !Str.Contains(code, "getItemOrNullObject"))
      && (AddNullCheck in fs <==> !Str.Contains(code, "isNullObject"))
      && |fs| == (if Str.Contains(code, ".load(") then 0 else 1)
               + (if Str.Contains(code, "getItemOrNullObject") then 0 else 1)
               + (if Str.Contains(code, "isNullObject") then 0 else 1)
  {
  }

  /**
   * For a general exception: a sync suggestion exactly when the code never
   * calls `context.sync()`, a split suggestion exactly when it is longer
   * than 500 characters.
   */
  lemma GeneralExceptionFixes(code: string)
    ensures var fs := TypeFixes(CodeExecutor.GeneralException, code);
      && (AddSync in fs <==> !Str.Contains(code, Complexity.Sync))
      && (SplitSteps in fs <==> |code| > LongCode)
  {
    Complexity.SyncCallsZeroIff(code, 0);
  }

  /** For an invalid argument: one suggestion for `.getItem(` and one for `InsertLocation`. */
  lemma InvalidArgumentFixes(code: string)
    ensures var fs := TypeFixes(CodeExecutor.InvalidArgument, code);
      && (UseOrNullObject in fs <==> Str.Contains(code, ".getItem("))
      && (CheckInsertLocation in fs <==> Str.Contains(code, "InsertLocation"))
  {
  }
}
