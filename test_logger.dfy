/**
 * The regression runner's logger (tests/office-skills/test-runner/
 * TestLogger.ts): an in-memory list of time-stamped lines, and the static
 * helpers that save, list and clear error reports in `localStorage`. The
 * clock is a parameter: each call is given the ISO time it would read.
 */
module TestLog {
  import opened Wrappers
  import Str
  import opened TestTypes

  datatype Level = Info | Warn | Error

  function LevelName(l: Level): string
  {
    match l
    case Info => "INFO"
    case Warn => "WARN"
    case Error => "ERROR"
  }

  /** `[${stamp}] [${LEVEL}] ${message}` */
  function Entry(stamp: string, level: Level, message: string): string
  {
    "[" + stamp + "] [" + LevelName(level) + "] " + message
  }

  /** A line names its level and message unambiguously: two lines with the same stamp are equal only when both agree. */
  lemma EntryDeterminesLevel(stamp: string, a: Level, m: string, b: Level, n: string)
    requires Entry(stamp, a, m) == Entry(stamp, b, n)
    ensures a == b && m == n
  {
    var p := "[" + stamp + "] [";
    Str.Assoc(p + LevelName(a), "] ", m);
    Str.Assoc(p + LevelName(b), "] ", n);
    Str.Assoc(p, LevelName(a), "] " + m);
    Str.Assoc(p, LevelName(b), "] " + n);
    Str.CancelPrefix(p, LevelName(a) + ("] " + m), LevelName(b) + ("] " + n));
    assert (LevelName(a) + ("] " + m))[0] == LevelName(a)[0];
    assert (LevelName(b) + ("] " + n))[0] == LevelName(b)[0];
    assert a == b;
    Str.CancelPrefix(LevelName(a), "] " + m, "] " + n);
    Str.CancelPrefix("] ", m, n);
  }

  function StartText(testCaseId: string, testName: string): string
  {
    "开始测试: " + testCaseId + " - " + testName
  }

  function StatusText(status: TestStatus): string
  {
    if status == Passed then "✅ 通过" else "❌ 失败"
  }

  /** ` (${duration}ms)` when the duration is truthy: present and not zero. */
  function DurationText(duration: Option<int>): string
  {
    if duration.Some? && duration.value != 0 then " (" + Str.IntToString(duration.value) + "ms)" else ""
  }

  function CompleteText(result: TestResult): string
  {
    "测试完成: " + result.testCaseId + " " + StatusText(result.status) + DurationText(result.duration)
  }

  function ErrorText(e: TestError): string
  {
    "  错误: " + e.message
  }

  /** What `logTestComplete` logs: one INFO line, then one ERROR line exactly when the result carries an error. */
  function CompleteLines(result: TestResult, stamp: string): (r: seq<string>)
    ensures |r| == if result.error.Some? then 2 else 1
    ensures r[0] == Entry(stamp, Info, CompleteText(result))
    ensures result.error.Some? ==> r[1] == Entry(stamp, Error, ErrorText(result.error.value))
  {
    [Entry(stamp, Info, CompleteText(result))]
    + (if result.error.Some? then [Entry(stamp, Error, ErrorText(result.error.value))] else [])
  }

  const SaveFailed := "保存错误报告失败"

  function SavedText(key: string): string
  {
    "错误报告已保存: " + key
  }

  /** The logger's index entry for a report: no host. */
  function EntryOf(report: ErrorReport): IndexEntry
  {
    IndexEntry(ReportKey(report.timestamp), report.timestamp, report.testCaseId, report.errorType, None)
  }

  /** The index after `push`: a missing index starts empty; an unreadable one makes `JSON.parse` or `push` throw. */
  function Appended(index: StoredIndex, e: IndexEntry): (r: Option<seq<IndexEntry>>)
    ensures index.Entries? ==> r == Some(index.entries + [e])
    ensures index.Absent? ==> r == Some([e])
    ensures (index.Garbled? || index.NotList?) ==> r == None
  {
    match index
    case Absent => Some([e])
    case Entries(es) => Some(es + [e])
    case _ => None
  }

  class TestLogger {
    const sessionId: string
    var logs: seq<string>

    constructor (sessionId: string)
      ensures this.sessionId == sessionId && logs == []
    {
      this.sessionId := sessionId;
      logs := [];
    }

    /** `info`: appends one INFO line. */
    method Info(message: string, stamp: string)
      modifies this
      ensures logs == old(logs) + [Entry(stamp, Level.Info, message)]
    {
      logs := logs + [Entry(stamp, Level.Info, message)];
    }

    /** `error`: appends one ERROR line; the error object only goes to the console. */
    method Error(message: string, stamp: string)
      modifies this
      ensures logs == old(logs) + [Entry(stamp, Level.Error, message)]
    {
      logs := logs + [Entry(stamp, Level.Error, message)];
    }

    /** `warn`: appends one WARN line. */
    method Warn(message: string, stamp: string)
      modifies this
      ensures logs == old(logs) + [Entry(stamp, Level.Warn, message)]
    {
      logs := logs + [Entry(stamp, Level.Warn, message)];
    }

    method LogTestStart(testCaseId: string, testName: string, stamp: string)
      modifies this
      ensures logs == old(logs) + [Entry(stamp, Level.Info, StartText(testCaseId, testName))]
    {
      Info(StartText(testCaseId, testName), stamp);
    }

    method LogTestComplete(result: TestResult, stamp: string)
      modifies this
      ensures logs == old(logs) + CompleteLines(result, stamp)
    {
      Info(CompleteText(result), stamp);
      if result.error.Some? {
        Error(ErrorText(result.error.value), stamp);
      }
    }

    /**
     * `saveErrorReport`: the report is written under its key first; then the
     * entry is pushed onto the index, with no limit on its length, and an
     * INFO line logged. When the index cannot be read the push throws: the
     * report stays written, the index is untouched and an ERROR line is
     * logged instead.
     */
    method SaveErrorReport(report: ErrorReport, store: ReportStorage, stamp: string)
      modifies this, store
      ensures store.reports == old(store.reports)[ReportKey(report.timestamp) := report]
      ensures var pushed := Appended(old(store.index), EntryOf(report));
        pushed.Some? ==>
          store.index == Entries(pushed.value)
          && logs == old(logs) + [Entry(stamp, Level.Info, SavedText(ReportKey(report.timestamp)))]
      ensures Appended(old(store.index), EntryOf(report)).None? ==>
        store.index == old(store.index) && logs == old(logs) + [Entry(stamp, Level.Error, SaveFailed)]
    {
      var key := ReportKey(report.timestamp);
      store.reports := store.reports[key := report];
      var pushed := Appended(store.index, EntryOf(report));
      if pushed.Some? {
        store.index := Entries(pushed.value);
        Info(SavedText(key), stamp);
      } else {
        Error(SaveFailed, stamp);
      }
    }

    /** `exportLogs` */
    function ExportLogs(): (r: string)
      reads this
      ensures |logs| == 1 ==> r == logs[0]
    {
      Str.Join(logs, "\n")
    }

    /** `clearLogs` */
    method ClearLogs()
      modifies this
      ensures logs == []
    {
      logs := [];
    }
  }

  /** The export holds every logged line. */
  lemma ExportHoldsEveryLine(logger: TestLogger, k: nat)
    requires k < |logger.logs|
    ensures Str.Contains(logger.ExportLogs(), logger.logs[k])
  {
    Str.JoinContainsPart(logger.logs, "\n", k);
  }

  /** What `getErrorReports` returns: the indexed reports in index order, or nothing when the index is missing or unreadable. */
  function Listed(reports: map<string, ErrorReport>, index: StoredIndex): seq<ErrorReport>
  {
    if index.Entries? then Indexed(reports, index.entries) else []
  }

  /** `getErrorReports`: the loop over the index, skipping entries whose report is gone. */
  method GetErrorReports(store: ReportStorage) returns (r: seq<ErrorReport>)
    ensures r == Listed(store.reports, store.index)
  {
    if !store.index.Entries? {
      return [];
    }
    var es := store.index.entries;
    r := [];
    var i := 0;
    while i < |es|
      invariant 0 <= i <= |es|
      invariant r == Indexed(store.reports, es[..i])
    {
      IndexedStep(store.reports, es, i);
      if es[i].key in store.reports {
        r := r + [store.reports[es[i].key]];
      }
      i := i + 1;
    }
    assert es[..|es|] == es;
  }

  /**
   * `clearErrorReports`: with a readable index every indexed report and the
   * index itself are removed, and nothing else; otherwise nothing changes.
   */
  method ClearErrorReports(store: ReportStorage)
    modifies store
    ensures old(store.index).Entries? ==>
      store.index == Absent && store.reports == old(store.reports) - KeysOf(old(store.index).entries)
    ensures !old(store.index).Entries? ==> store.index == old(store.index) && store.reports == old(store.reports)
  {
    if !store.index.Entries? {
      return;
    }
    var es := store.index.entries;
    var i := 0;
    while i < |es|
      invariant 0 <= i <= |es|
      invariant store.index == old(store.index)
      invariant store.reports == old(store.reports) - KeysOf(es[..i])
    {
      assert es[..i + 1][..i] == es[..i];
      store.reports := store.reports - {es[i].key};
      i := i + 1;
    }
    assert es[..|es|] == es;
    store.index := Absent;
  }

  /**
   * Saving a report whose key is new to a readable or missing index lists it
   * last, after everything listed before.
   */
  lemma SavedReportListedLast(reports: map<string, ErrorReport>, index: StoredIndex, report: ErrorReport)
    requires index.Absent? || index.Entries?
    requires index.Entries? ==> ReportKey(report.timestamp) !in KeysOf(index.entries)
    ensures var pushed := Appended(index, EntryOf(report));
      pushed.Some?
      && Listed(reports[ReportKey(report.timestamp) := report], Entries(pushed.value)) == Listed(reports, index) + [report]
  {
    var key := ReportKey(report.timestamp);
    var es := if index.Entries? then index.entries else [];
    assert [] + [EntryOf(report)] == [EntryOf(report)];
    assert Appended(index, EntryOf(report)) == Some(es + [EntryOf(report)]);
    IndexedAppend(reports[key := report], es, EntryOf(report));
    IndexedUnchanged(reports, es, key, report);
  }

  /**
   * Two reports with the same timestamp share a key, and the index has no
   * limit or check: saving both into an empty store lists the second one
   * twice and the first not at all.
   */
  lemma SameStampListedTwice(r1: ErrorReport, r2: ErrorReport)
    requires r1.timestamp == r2.timestamp
    ensures var key := ReportKey(r1.timestamp);
      Listed(map[key := r1][key := r2], Entries([EntryOf(r1), EntryOf(r2)])) == [r2, r2]
  {
    var key := ReportKey(r1.timestamp);
    var m := map[key := r1][key := r2];
    var es := [EntryOf(r1), EntryOf(r2)];
    assert es[..1] == [EntryOf(r1)];
    assert es[..1][..0] == [];
    assert Indexed(m, es[..1]) == [r2];
  }
}
