/**
 * The records of the Office skill regression runner (tests/office-skills/
 * test-runner/types.ts) and the slice of `localStorage` that holds its error
 * reports: one value per report under `error-report-<timestamp>` and an index
 * of the saved reports under `error-reports-index`.
 *
 * Reports are read back from JSON, so the host and error type are kept as
 * the strings found there rather than as closed enumerations.
 */
module TestTypes {
  import opened Wrappers

  datatype TestStatus = Pending | Running | Passed | Failed | Skipped

  datatype Priority = High | Medium | Low

  datatype TestCase = TestCase(
    id: string,
    category: string,
    name: string,
    description: string,
    userInput: string,
    expectedCode: Option<string>,
    expectedBehavior: string,
    validationSteps: seq<string>,
    toolsTemplate: string,
    priority: Option<Priority>)

  datatype TestError = TestError(errorType: string, code: Option<string>, message: string, stackTrace: Option<string>)

  datatype TestResult = TestResult(
    testCaseId: string,
    status: TestStatus,
    startTime: string,
    endTime: Option<string>,
    duration: Option<int>,
    error: Option<TestError>,
    actualCode: Option<string>)

  datatype ReportContext = ReportContext(officeVersion: string, platform: string, browserInfo: Option<string>)

  datatype ErrorReport = ErrorReport(
    timestamp: string,
    testCaseId: string,
    hostType: string,
    errorType: string,
    errorCode: Option<string>,
    errorMessage: string,
    stackTrace: Option<string>,
    userInput: string,
    generatedCode: string,
    context: ReportContext)

  /** One index entry; the runner's logger leaves out the host. */
  datatype IndexEntry = IndexEntry(key: string, timestamp: string, testCaseId: string, errorType: string, hostType: Option<string>)

  /**
   * The text under the index key: missing or empty; not JSON (`JSON.parse`
   * throws); JSON that is not a list (`push` and `for … of` throw); or a list
   * of entries.
   */
  datatype StoredIndex = Absent | Garbled | NotList | Entries(entries: seq<IndexEntry>)

  const IndexKey := "error-reports-index"

  function ReportKey(timestamp: string): string
  {
    "error-report-" + timestamp
  }

  /** No report key is the index key: they part at the thirteenth character. */
  lemma ReportKeyIsNotIndexKey(timestamp: string)
    ensures ReportKey(timestamp) != IndexKey
  {
    assert ReportKey(timestamp)[12] == '-';
    assert IndexKey[12] == 's';
  }

  /**
   * The error-report slice of `localStorage`. The JSON encoding of a report
   * is abstracted: a stored report reads back as the report written.
   */
  class ReportStorage {
    var reports: map<string, ErrorReport>
    var index: StoredIndex

    constructor ()
      ensures reports == map[] && index == Absent
    {
      reports := map[];
      index := Absent;
    }
  }

  /** The keys an index names. */
  function KeysOf(es: seq<IndexEntry>): (r: set<string>)
    ensures forall x :: 0 <= x < |es| ==> es[x].key in r
  {
    if |es| == 0 then {} else KeysOf(es[..|es| - 1]) + {es[|es| - 1].key}
  }

  /** The reports the index names, in index order, skipping keys with no stored report. */
  function Indexed(reports: map<string, ErrorReport>, es: seq<IndexEntry>): (r: seq<ErrorReport>)
    ensures |r| <= |es|
  {
    if |es| == 0 then []
    else
      var key := es[|es| - 1].key;
      Indexed(reports, es[..|es| - 1]) + (if key in reports then [reports[key]] else [])
  }

  /** Every listed report is stored under some indexed key. */
  lemma {:induction false} IndexedStored(reports: map<string, ErrorReport>, es: seq<IndexEntry>)
    ensures forall r :: r in Indexed(reports, es) ==> exists k :: k in KeysOf(es) && k in reports && reports[k] == r
  {
    if |es| > 0 {
      IndexedStored(reports, es[..|es| - 1]);
    }
  }

  lemma IndexedStep(reports: map<string, ErrorReport>, es: seq<IndexEntry>, i: nat)
    requires i < |es|
    ensures Indexed(reports, es[..i + 1])
         == Indexed(reports, es[..i]) + (if es[i].key in reports then [reports[es[i].key]] else [])
  {
    assert es[..i + 1][..i] == es[..i];
  }

  /** Writing a key the index does not name changes nothing that is listed. */
  lemma {:induction false} IndexedUnchanged(reports: map<string, ErrorReport>, es: seq<IndexEntry>, key: string, r: ErrorReport)
    requires key !in KeysOf(es)
    ensures Indexed(reports[key := r], es) == Indexed(reports, es)
  {
    if |es| > 0 {
      IndexedUnchanged(reports, es[..|es| - 1], key, r);
    }
  }

  /** Removing a key the index does not name changes nothing that is listed. */
  lemma {:induction false} IndexedWithout(reports: map<string, ErrorReport>, es: seq<IndexEntry>, key: string)
    requires key !in KeysOf(es)
    ensures Indexed(reports - {key}, es) == Indexed(reports, es)
  {
    if |es| > 0 {
      IndexedWithout(reports, es[..|es| - 1], key);
    }
  }

  lemma IndexedAppend(reports: map<string, ErrorReport>, es: seq<IndexEntry>, e: IndexEntry)
    ensures Indexed(reports, es + [e]) == Indexed(reports, es) + (if e.key in reports then [reports[e.key]] else [])
  {
    assert (es + [e])[..|es|] == es;
  }

  lemma {:induction false} KeysOfMembers(es: seq<IndexEntry>, k: string)
    ensures k in KeysOf(es) <==> exists x :: 0 <= x < |es| && es[x].key == k
  {
    if |es| > 0 {
      KeysOfMembers(es[..|es| - 1], k);
      if k in KeysOf(es[..|es| - 1]) {
        var x :| 0 <= x < |es| - 1 && es[..|es| - 1][x].key == k;
        assert es[x].key == k;
      }
    }
  }

  /** The parsed timestamp of a report, the sort key of newest-first lists. */
  function TimeKey(timeOf: string -> int): ErrorReport -> int
  {
    (r: ErrorReport) => timeOf(r.timestamp)
  }
}
