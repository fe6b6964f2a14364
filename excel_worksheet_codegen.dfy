/**
 * The Excel worksheet generators: list, add, delete, rename, test for,
 * activate and copy a worksheet.  Every generator that names an existing
 * sheet looks it up with `getItemOrNullObject` and returns a failure object
 * when the lookup comes back as the null object.
 */
module ExcelWorksheetCodegen {
  import opened Wrappers
  import Str
  import Codegen
  import S = ExcelSchemas

  // ---------------------------------------------------------------------
  // The lookup guard
  // ---------------------------------------------------------------------

  /** `sheets.getItemOrNullObject("<name>")` */
  function Lookup(name: string): string
  {
    "sheets.getItemOrNullObject(\"" + name + "\")"
  }

  /** The two lines every template opens with. */
  const Opening: seq<string> := [
    "Excel.run(async (context) => {",
    "  const sheets = context.workbook.worksheets;" ]

  /** The failure message for a sheet that is not there. */
  function Missing(name: string): string
  {
    "工作表不存在: " + name
  }

  // ---------------------------------------------------------------------
  // List
  // ---------------------------------------------------------------------

  const SheetProperties := "sheets.load(\"items/name, items/id, items/position, items/visibility\")"

  /** The report of the sheet count. */
  const SheetCount := "count: sheetInfos.length"

  function ListLines(): (r: seq<string>)
    ensures |r| == 17
  {
    [ "Excel.run(async (context) => {",
      "  const sheets = context.workbook.worksheets;",
      "  " + (SheetProperties) + ";" ]
    + [ "  await context.sync();",
        "  ",
        "  const sheetInfos = sheets.items.map(sheet => ({",
        "    name: sheet.name,",
        "    id: sheet.id,",
        "    position: sheet.position,",
        "    visible: sheet.visibility === Excel.SheetVisibility.visible",
        "  }));",
        "  ",
        "  return {",
        "    sheets: sheetInfos," ]
    + [ "    " + (SheetCount),
        "  };",
        "});" ]
  }

  /** `generateListCode`: loads name, id, position and visibility of every sheet and reports them with their count. */
  function ListCode(): (r: string)
    ensures Str.Contains(r, SheetProperties)
    ensures Str.Contains(r, SheetCount)
  {
    Codegen.HasLine(ListLines(), 2, "  ", SheetProperties, ";");
    Codegen.HasTail(ListLines(), 14, "    ", SheetCount);
    Codegen.Code(ListLines())
  }

  // ---------------------------------------------------------------------
  // Add
  // ---------------------------------------------------------------------

  /** Only `before` and `after` need a reference sheet. */
  predicate NeedsReference(position: Option<S.SheetPosition>)
  {
    position == Some(S.BeforeSheet) || position == Some(S.AfterSheet)
  }

  /** The `Excel.WorksheetPositionType` member `add` uses. */
  function AddPositionType(position: Option<S.SheetPosition>): (r: string)
    ensures position.Some? ==> r == S.SheetPositionName(position.value)
    ensures position.None? ==> r == "end"
  {
    if NeedsReference(position) then
      (if position == Some(S.BeforeSheet) then "before" else "after")
    else if position == Some(S.AtStart) then "start"
    else "end"
  }

  /** The position type alone decides the branch: `before`/`after` refer to a sheet, `start`/`end` do not. */
  lemma AddBranches(position: Option<S.SheetPosition>)
    ensures NeedsReference(position) <==> AddPositionType(position) in {"before", "after"}
    ensures !NeedsReference(position) <==> AddPositionType(position) in {"start", "end"}
  {
  }

  /** `sheets.add("<name>", Excel.WorksheetPositionType.<type>[, refSheet])` */
  function AddCall(name: string, positionType: string, referenced: bool): string
  {
    "sheets.add(\"" + name + "\", Excel.WorksheetPositionType." + positionType
      + (if referenced then ", refSheet" else "") + ")"
  }

  /** The failure both branches report for a name that is already taken. */
  const NameTaken := "error: \"工作表已存在\""

  /** The guard both branches open with: a sheet of that name already exists. */
  function ExistingGuard(name: string): (r: seq<string>)
    ensures |r| == 16
  {
    [ "Excel.run(async (context) => {",
      "  const sheets = context.workbook.worksheets;",
      "  ",
      "  // 检查工作表是否已存在",
      "  const existingSheet = " + (Lookup(name)) + ";",
      "  await context.sync();",
      "  ",
      "  if (!existingSheet.isNullObject) {",
      "    return {",
      "      name: \"" + name + "\",",
      "      id: existingSheet.id,",
      "      success: false,",
      "      " + (NameTaken),
      "    };",
      "  }",
      "  " ]
  }

  /** What follows the add call in both branches. */
  const AddFoot: seq<string> := [
    "  newSheet.load(\"name, id\");",
    "  await context.sync();",
    "  ",
    "  return {",
    "    name: newSheet.name,",
    "    id: newSheet.id,",
    "    success: true",
    "  };",
    "});" ]

  /** The reference-sheet steps of the `before`/`after` branch; the other branch has none. */
  function ReferenceSteps(position: Option<S.SheetPosition>, reference: string): (r: seq<string>)
    ensures !NeedsReference(position) ==> r == []
  {
    if NeedsReference(position) then
      ["  // 获取参考工作表"] + Codegen.NullGuard("refSheet", Lookup(reference), "参考工作表不存在: " + reference)
    else []
  }

  /** The add call and everything after it. */
  function AddSteps(name: string, position: Option<S.SheetPosition>): seq<string>
  {
    ["  // 添加工作表",
     "  const newSheet = " + (AddCall(name, AddPositionType(position), NeedsReference(position))) + ";"]
      + AddFoot
  }

  function AddLines(name: string, position: Option<S.SheetPosition>, referenceSheet: Option<string>): seq<string>
  {
    ExistingGuard(name) + (ReferenceSteps(position, referenceSheet.GetOr("")) + AddSteps(name, position))
  }

  /** `generateAddCode` */
  function AddCode(name: string, position: Option<S.SheetPosition>, referenceSheet: Option<string>): string
  {
    Codegen.Code(AddLines(name, position, referenceSheet))
  }

  /**
   * Both branches open by refusing a name that is already taken, and then
   * add the sheet at the position type `AddPositionType` chooses, relative
   * to the reference sheet exactly when the position is `before` or `after`.
   */
  lemma AddRefusesExisting(name: string, position: Option<S.SheetPosition>, referenceSheet: Option<string>)
    ensures AddLines(name, position, referenceSheet)[..16] == ExistingGuard(name)
    ensures Str.Contains(AddCode(name, position, referenceSheet), NameTaken)
    ensures Str.Contains(AddCode(name, position, referenceSheet),
                         AddCall(name, AddPositionType(position), NeedsReference(position)))
  {
    var guard := ExistingGuard(name);
    var middle := ReferenceSteps(position, referenceSheet.GetOr(""));
    var steps := AddSteps(name, position);
    var lines := guard + (middle + steps);
    assert lines[..16] == guard;
    assert lines[12] == guard[12];
    Codegen.HasTail(lines, 12, "      ", NameTaken);
    var k := 16 + |middle| + 1;
    assert lines[k] == steps[1];
    Codegen.HasLine(lines, k, "  const newSheet = ", AddCall(name, AddPositionType(position), NeedsReference(position)), ";");
  }

  /** The `before`/`after` branch looks the reference sheet up, embedding a missing one as the empty name. */
  lemma AddLooksUpReference(name: string, position: Option<S.SheetPosition>, referenceSheet: Option<string>)
    requires NeedsReference(position)
    ensures Str.Contains(AddCode(name, position, referenceSheet), Lookup(referenceSheet.GetOr("")))
    ensures Str.Contains(AddCode(name, position, referenceSheet), Codegen.NullTest("refSheet"))
    ensures referenceSheet.None? ==> Str.Contains(AddCode(name, position, referenceSheet), Lookup(""))
  {
    var reference := referenceSheet.GetOr("");
    var pre := ExistingGuard(name) + ["  // 获取参考工作表"];
    var post := AddSteps(name, position);
    assert AddLines(name, position, referenceSheet)
        == pre + Codegen.NullGuard("refSheet", Lookup(reference), "参考工作表不存在: " + reference) + post;
    Codegen.GuardText(pre, "refSheet", Lookup(reference), "参考工作表不存在: " + reference, post);
  }

  // ---------------------------------------------------------------------
  // Delete, rename, exists, activate
  // ---------------------------------------------------------------------

  function DeleteSteps(name: string): seq<string>
  {
    [ "  " + ("sheet.delete()") + ";",
      "  await context.sync();",
      "  ",
      "  return {",
      "    success: true,",
      "    deleted: \"" + name + "\"",
      "  };",
      "});" ]
  }

  /** `generateDeleteCode`: deletes the sheet, or fails with 工作表不存在 when there is none of that name. */
  function DeleteCode(name: string): (r: string)
    ensures Str.Contains(r, Lookup(name)) && Str.Contains(r, Codegen.NullTest("sheet"))
    ensures Str.Contains(r, "error: \"" + Missing(name) + "\"")
    ensures Str.Contains(r, "sheet.delete()")
  {
    var lines := Opening + Codegen.NullGuard("sheet", Lookup(name), Missing(name)) + DeleteSteps(name);
    Codegen.GuardText(Opening, "sheet", Lookup(name), Missing(name), DeleteSteps(name));
    assert lines[12] == DeleteSteps(name)[0];
    Codegen.HasLine(lines, 12, "  ", "sheet.delete()", ";");
    Codegen.Code(lines)
  }

  function RenameSteps(oldName: string, newName: string): seq<string>
  {
    [ "  " + ("sheet.name = \"" + newName + "\"") + ";",
      "  await context.sync();",
      "  ",
      "  return {",
      "    success: true,",
      "    oldName: \"" + oldName + "\",",
      "    newName: \"" + newName + "\"",
      "  };",
      "});" ]
  }

  /** `generateRenameCode`: renames the sheet found under the old name, or fails when there is none. */
  function RenameCode(oldName: string, newName: string): (r: string)
    ensures Str.Contains(r, Lookup(oldName)) && Str.Contains(r, Codegen.NullTest("sheet"))
    ensures Str.Contains(r, "error: \"" + Missing(oldName) + "\"")
    ensures Str.Contains(r, "sheet.name = \"" + newName + "\"")
  {
    var lines := Opening + Codegen.NullGuard("sheet", Lookup(oldName), Missing(oldName)) + RenameSteps(oldName, newName);
    Codegen.GuardText(Opening, "sheet", Lookup(oldName), Missing(oldName), RenameSteps(oldName, newName));
    assert lines[12] == RenameSteps(oldName, newName)[0];
    Codegen.HasLine(lines, 12, "  ", "sheet.name = \"" + newName + "\"", ";");
    Codegen.Code(lines)
  }

  function ExistsLines(name: string): seq<string>
  {
    [ "Excel.run(async (context) => {",
      "  const sheets = context.workbook.worksheets;",
      "  const sheet = " + (Lookup(name)) + ";",
      "  await context.sync();",
      "  ",
      "  return {",
      "    " + ("exists: !sheet.isNullObject") + ",",
      "    name: \"" + name + "\"",
      "  };",
      "});" ]
  }

  /** `generateExistsCode`: reports whether the lookup found a sheet, without failing. */
  function ExistsCode(name: string): (r: string)
    ensures Str.Contains(r, Lookup(name))
    ensures Str.Contains(r, "exists: !sheet.isNullObject")
  {
    var lines := ExistsLines(name);
    Codegen.HasLine(lines, 2, "  const sheet = ", Lookup(name), ";");
    Codegen.HasLine(lines, 6, "    ", "exists: !sheet.isNullObject", ",");
    Codegen.Code(lines)
  }

  function ActivateSteps(name: string): seq<string>
  {
    [ "  " + ("sheet.activate()") + ";",
      "  await context.sync();",
      "  ",
      "  return {",
      "    success: true,",
      "    activated: \"" + name + "\"",
      "  };",
      "});" ]
  }

  /** `generateActivateCode`: activates the sheet, or fails with 工作表不存在 when there is none. */
  function ActivateCode(name: string): (r: string)
    ensures Str.Contains(r, Lookup(name)) && Str.Contains(r, Codegen.NullTest("sheet"))
    ensures Str.Contains(r, "error: \"" + Missing(name) + "\"")
    ensures Str.Contains(r, "sheet.activate()")
  {
    var lines := Opening + Codegen.NullGuard("sheet", Lookup(name), Missing(name)) + ActivateSteps(name);
    Codegen.GuardText(Opening, "sheet", Lookup(name), Missing(name), ActivateSteps(name));
    assert lines[12] == ActivateSteps(name)[0];
    Codegen.HasLine(lines, 12, "  ", "sheet.activate()", ";");
    Codegen.Code(lines)
  }

  // ---------------------------------------------------------------------
  // Copy
  // ---------------------------------------------------------------------

  /** `params.position === 'before' ? 'before' : 'after'` */
  function CopyPositionType(position: Option<S.CopyPosition>): (r: string)
    ensures position.Some? ==> r == S.CopyPositionName(position.value)
    ensures position.None? ==> r == "after"
  {
    if position == Some(S.CopyBefore) then "before" else "after"
  }

  /** The failure message for a missing source sheet. */
  function SourceMissing(name: string): string
  {
    "源工作表不存在: " + name
  }

  /** `sourceSheet.copy(Excel.WorksheetPositionType.<type>, sourceSheet)` */
  function CopyCall(positionType: string): string
  {
    "sourceSheet.copy(Excel.WorksheetPositionType." + positionType + ", sourceSheet)"
  }

  function CopySteps(newName: string, positionType: string): seq<string>
  {
    [ "  // 复制工作表",
      "  const copiedSheet = " + (CopyCall(positionType)) + ";",
      "  " + ("copiedSheet.name = \"" + newName + "\"") + ";",
      "  copiedSheet.load(\"name, id\");",
      "  await context.sync();",
      "  ",
      "  return {",
      "    success: true,",
      "    newSheetName: copiedSheet.name,",
      "    newSheetId: copiedSheet.id",
      "  };",
      "});" ]
  }

  /**
   * `generateCopyCode`: copies the source sheet next to itself, before it
   * only when asked, names the copy, and fails with 源工作表不存在 when
   * the source is missing.
   */
  function CopyCode(sourceName: string, newName: string, position: Option<S.CopyPosition>): (r: string)
    ensures Str.Contains(r, Lookup(sourceName)) && Str.Contains(r, Codegen.NullTest("sourceSheet"))
    ensures Str.Contains(r, "error: \"" + SourceMissing(sourceName) + "\"")
    ensures Str.Contains(r, CopyCall(CopyPositionType(position)))
    ensures Str.Contains(r, "copiedSheet.name = \"" + newName + "\"")
  {
    var message := SourceMissing(sourceName);
    var steps := CopySteps(newName, CopyPositionType(position));
    var lines := Opening + Codegen.NullGuard("sourceSheet", Lookup(sourceName), message) + steps;
    Codegen.GuardText(Opening, "sourceSheet", Lookup(sourceName), message, steps);
    assert lines[13] == steps[1];
    assert lines[14] == steps[2];
    Codegen.HasLine(lines, 13, "  const copiedSheet = ", CopyCall(CopyPositionType(position)), ";");
    Codegen.HasLine(lines, 14, "  ", "copiedSheet.name = \"" + newName + "\"", ";");
    Codegen.Code(lines)
  }
}
