/**
 * The error collector of the regression runner (tests/office-skills/
 * error-analysis/ErrorCollector.ts): static helpers over the error-report
 * slice of `localStorage` that keep the index to the latest 1000 reports,
 * list the reports newest first, filter them and count them. Parsing an
 * ISO timestamp (`new Date(s).getTime()`) and the current time are
 * parameters.
 */
module Collector {
  import opened Wrappers
  import Sorting
  import Tally
  import opened TestTypes

  const MaxReports := 1000

  /**
   * `getIndex`: a missing or unparsable index reads as the empty list; JSON
   * that is not a list comes back as it is (`None` here), and the caller's
   * `push` or `for … of` then throws.
   */
  function ReadIndex(index: StoredIndex): (r: Option<seq<IndexEntry>>)
    ensures (index.Absent? || index.Garbled?) ==> r == Some([])
    ensures index.NotList? ==> r == None
    ensures index.Entries? ==> r == Some(index.entries)
  {
    match index
    case Absent => Some([])
    case Garbled => Some([])
    case NotList => None
    case Entries(es) => Some(es)
  }

  function EntryOf(report: ErrorReport): IndexEntry
  {
    IndexEntry(ReportKey(report.timestamp), report.timestamp, report.testCaseId, report.errorType, Some(report.hostType))
  }

  /** The index after `push`, then one `shift` when it grew past 1000. */
  function PushCapped(index: seq<IndexEntry>, e: IndexEntry): (r: seq<IndexEntry>)
    ensures |index| <= MaxReports ==> |r| <= MaxReports
    ensures |r| > 0 && r[|r| - 1] == e
    ensures |index| < MaxReports ==> r == index + [e]
    ensures |index| >= MaxReports ==> r == index[1..] + [e]
  {
    var pushed := index + [e];
    if |pushed| > MaxReports then pushed[1..] else pushed
  }

  /** The index never holds more than 1000 entries. */
  predicate Bounded(index: StoredIndex)
  {
    index.Entries? ==> |index.entries| <= MaxReports
  }

  /**
   * `saveErrorReport`: the report is written first. A readable index gets
   * the entry and, past 1000 entries, loses its oldest entry together with
   * that entry's report; an unparsable index is replaced by one holding only
   * the new entry. JSON that is not a list makes `push` throw, which is
   * swallowed.
   */
  method SaveErrorReport(store: ReportStorage, report: ErrorReport)
    modifies store
    ensures var key := ReportKey(report.timestamp);
      match ReadIndex(old(store.index))
      case None => store.reports == old(store.reports)[key := report] && store.index == old(store.index)
      case Some(es) =>
        store.index == Entries(PushCapped(es, EntryOf(report)))
        && store.reports == (if |es| >= MaxReports then old(store.reports)[key := report] - {es[0].key}
                             else old(store.reports)[key := report])
    ensures Bounded(old(store.index)) ==> Bounded(store.index)
  {
    var key := ReportKey(report.timestamp);
    store.reports := store.reports[key := report];
    var read := ReadIndex(store.index);
    if read.None? {
      return;
    }
    var index := read.value + [EntryOf(report)];
    if |index| > MaxReports {
      var oldestKey := index[0].key;
      index := index[1..];
      store.reports := store.reports - {oldestKey};
    }
    store.index := Entries(index);
  }

  /** The report just saved is listed unless it replaced a JSON value that is not a list, or was itself the oldest entry evicted. */
  lemma SavedIsIndexed(es: seq<IndexEntry>, report: ErrorReport)
    ensures EntryOf(report) in PushCapped(es, EntryOf(report))
    ensures EntryOf(report).key == ReportKey(report.timestamp)
  {
    var r := PushCapped(es, EntryOf(report));
    assert r[|r| - 1] == EntryOf(report);
  }

  /** What `getAllReports` returns: the indexed reports, newest first; an unusable index gives nothing. */
  function AllReports(reports: map<string, ErrorReport>, index: StoredIndex, timeOf: string -> int): seq<ErrorReport>
  {
    if index.Entries? then Sorting.SortDesc(Indexed(reports, index.entries), TimeKey(timeOf)) else []
  }

  /** `getAllReports`: the collecting loop over the index, then the stable sort by parsed timestamp, newest first. */
  method GetAllReports(store: ReportStorage, timeOf: string -> int) returns (r: seq<ErrorReport>)
    ensures r == AllReports(store.reports, store.index, timeOf)
  {
    if !store.index.Entries? {
      return [];
    }
    var es := store.index.entries;
    var collected: seq<ErrorReport> := [];
    var i := 0;
    while i < |es|
      invariant 0 <= i <= |es|
      invariant collected == Indexed(store.reports, es[..i])
    {
      IndexedStep(store.reports, es, i);
      if es[i].key in store.reports {
        collected := collected + [store.reports[es[i].key]];
      }
      i := i + 1;
    }
    assert es[..|es|] == es;
    r := Sorting.SortDesc(collected, TimeKey(timeOf));
  }

  /**
   * The listing is newest first, holds exactly the stored reports the index
   * names (as a multiset), and keeps index order among equal times.
   */
  lemma AllReportsNewestFirst(reports: map<string, ErrorReport>, es: seq<IndexEntry>, timeOf: string -> int)
    ensures var all := AllReports(reports, Entries(es), timeOf);
      (forall i, j :: 0 <= i < j < |all| ==> timeOf(all[i].timestamp) >= timeOf(all[j].timestamp))
      && multiset(all) == multiset(Indexed(reports, es))
      && forall t :: Sorting.WithKey(all, TimeKey(timeOf), t) == Sorting.WithKey(Indexed(reports, es), TimeKey(timeOf), t)
  {
    Sorting.SortDescSorted(Indexed(reports, es), TimeKey(timeOf));
  }

  /** `filter` */
  function Filter(rs: seq<ErrorReport>, keep: ErrorReport -> bool): (r: seq<ErrorReport>)
    ensures |r| <= |rs|
    ensures forall x :: x in r <==> x in rs && keep(x)
  {
    if |rs| == 0 then []
    else
      var front := Filter(rs[..|rs| - 1], keep);
      assert forall x :: x in rs <==> x in rs[..|rs| - 1] || x == rs[|rs| - 1];
      if keep(rs[|rs| - 1]) then front + [rs[|rs| - 1]] else front
  }

  function HostIs(hostType: string): ErrorReport -> bool
  {
    (x: ErrorReport) => x.hostType == hostType
  }

  function ErrorTypeIs(errorType: string): ErrorReport -> bool
  {
    (x: ErrorReport) => x.errorType == errorType
  }

  /** Both ends of the range are inclusive. */
  function TimeWithin(timeOf: string -> int, startTime: int, endTime: int): ErrorReport -> bool
  {
    (x: ErrorReport) => startTime <= timeOf(x.timestamp) && timeOf(x.timestamp) <= endTime
  }

  /** `getReportsByHost`: the listing, newest first, narrowed to one host. */
  method GetReportsByHost(store: ReportStorage, timeOf: string -> int, hostType: string) returns (r: seq<ErrorReport>)
    ensures r == Filter(AllReports(store.reports, store.index, timeOf), HostIs(hostType))
    ensures forall x :: x in r <==> x in AllReports(store.reports, store.index, timeOf) && x.hostType == hostType
  {
    var all := GetAllReports(store, timeOf);
    r := Filter(all, HostIs(hostType));
  }

  /** `getReportsByErrorType` */
  method GetReportsByErrorType(store: ReportStorage, timeOf: string -> int, errorType: string) returns (r: seq<ErrorReport>)
    ensures r == Filter(AllReports(store.reports, store.index, timeOf), ErrorTypeIs(errorType))
    ensures forall x :: x in r <==> x in AllReports(store.reports, store.index, timeOf) && x.errorType == errorType
  {
    var all := GetAllReports(store, timeOf);
    r := Filter(all, ErrorTypeIs(errorType));
  }

  /** `getReportsByTimeRange`: both ends are inclusive. */
  method GetReportsByTimeRange(store: ReportStorage, timeOf: string -> int, startTime: int, endTime: int) returns (r: seq<ErrorReport>)
    ensures r == Filter(AllReports(store.reports, store.index, timeOf), TimeWithin(timeOf, startTime, endTime))
    ensures forall x :: x in r <==>
      x in AllReports(store.reports, store.index, timeOf) && startTime <= timeOf(x.timestamp) <= endTime
  {
    var all := GetAllReports(store, timeOf);
    r := Filter(all, TimeWithin(timeOf, startTime, endTime));
  }

  /**
   * `clearAllReports`: every report the index names is removed and then the
   * index key. An unparsable index reads as empty, so only the index key
   * goes; JSON that is not a list makes the loop throw and nothing changes.
   */
  method ClearAllReports(store: ReportStorage)
    modifies store
    ensures match ReadIndex(old(store.index))
      case None => store.index == old(store.index) && store.reports == old(store.reports)
      case Some(es) => store.index == Absent && store.reports == old(store.reports) - KeysOf(es)
  {
    var read := ReadIndex(store.index);
    if read.None? {
      return;
    }
    var es := read.value;
    var i := 0;
    while i < |es|
      invariant 0 <= i <= |es|
      invariant store.reports == old(store.reports) - KeysOf(es[..i])
    {
      assert es[..i + 1][..i] == es[..i];
      store.reports := store.reports - {es[i].key};
      i := i + 1;
    }
    assert es[..|es|] == es;
    store.index := Absent;
  }

  // ---------------------------------------------------------------------------
  // Statistics
  // ---------------------------------------------------------------------------

  const Day := 24 * 60 * 60 * 1000
  const Week := 7 * 24 * 60 * 60 * 1000

  datatype Statistics = Statistics(
    total: nat,
    byErrorType: seq<Tally.Bucket<string>>,
    byHostType: seq<Tally.Bucket<string>>,
    recent24h: nat,
    recent7d: nat)

  function ErrorTypes(rs: seq<ErrorReport>): (r: seq<string>)
    ensures |r| == |rs|
    ensures forall i :: 0 <= i < |rs| ==> r[i] == rs[i].errorType
  {
    seq(|rs|, i requires 0 <= i < |rs| => rs[i].errorType)
  }

  function HostTypes(rs: seq<ErrorReport>): (r: seq<string>)
    ensures |r| == |rs|
    ensures forall i :: 0 <= i < |rs| ==> r[i] == rs[i].hostType
  {
    seq(|rs|, i requires 0 <= i < |rs| => rs[i].hostType)
  }

  /** How many reports are no older than `since`. */
  function CountSince(rs: seq<ErrorReport>, timeOf: string -> int, since: int): (n: nat)
    ensures n <= |rs|
  {
    if |rs| == 0 then 0
    else CountSince(rs[..|rs| - 1], timeOf, since) + (if timeOf(rs[|rs| - 1].timestamp) >= since then 1 else 0)
  }

  /** A later cut-off never counts more. */
  lemma {:induction false} CountSinceMonotone(rs: seq<ErrorReport>, timeOf: string -> int, a: int, b: int)
    requires a <= b
    ensures CountSince(rs, timeOf, b) <= CountSince(rs, timeOf, a)
  {
    if |rs| > 0 {
      CountSinceMonotone(rs[..|rs| - 1], timeOf, a, b);
    }
  }

  lemma CountStep(rs: seq<ErrorReport>, i: nat, timeOf: string -> int, since: int)
    requires i < |rs|
    ensures CountSince(rs[..i + 1], timeOf, since)
         == CountSince(rs[..i], timeOf, since) + (if timeOf(rs[i].timestamp) >= since then 1 else 0)
  {
    assert rs[..i + 1][..i] == rs[..i];
  }

  /**
   * The counting loop of `getStatistics` over an already listed set of
   * reports: per error type and per host in order of first appearance, and
   * the reports of the last 24 hours and 7 days before `now`.
   */
  method Count(reports: seq<ErrorReport>, timeOf: string -> int, now: int) returns (stats: Statistics)
    ensures stats.total == |reports|
    ensures stats.byErrorType == Tally.Of(ErrorTypes(reports))
    ensures stats.byHostType == Tally.Of(HostTypes(reports))
    ensures stats.recent24h == CountSince(reports, timeOf, now - Day)
    ensures stats.recent7d == CountSince(reports, timeOf, now - Week)
  {
    var byErrorType: seq<Tally.Bucket<string>> := [];
    var byHostType: seq<Tally.Bucket<string>> := [];
    var recent24h, recent7d := 0, 0;
    var types, hosts := ErrorTypes(reports), HostTypes(reports);
    var i := 0;
    while i < |reports|
      invariant 0 <= i <= |reports|
      invariant byErrorType == Tally.Of(types[..i])
      invariant byHostType == Tally.Of(hosts[..i])
      invariant recent24h == CountSince(reports[..i], timeOf, now - Day)
      invariant recent7d == CountSince(reports[..i], timeOf, now - Week)
    {
      var report := reports[i];
      Tally.OfStep(types, i);
      Tally.OfStep(hosts, i);
      CountStep(reports, i, timeOf, now - Day);
      CountStep(reports, i, timeOf, now - Week);
      byErrorType := Tally.Bump(byErrorType, report.errorType);
      byHostType := Tally.Bump(byHostType, report.hostType);
      if timeOf(report.timestamp) >= now - Day {
        recent24h := recent24h + 1;
      }
      if timeOf(report.timestamp) >= now - Week {
        recent7d := recent7d + 1;
      }
      i := i + 1;
    }
    assert types[..|reports|] == types && hosts[..|reports|] == hosts && reports[..|reports|] == reports;
    stats := Statistics(|reports|, byErrorType, byHostType, recent24h, recent7d);
  }

  /** `getStatistics` */
  method GetStatistics(store: ReportStorage, timeOf: string -> int, now: int) returns (stats: Statistics)
    ensures var all := AllReports(store.reports, store.index, timeOf);
      stats.total == |all|
      && stats.byErrorType == Tally.Of(ErrorTypes(all))
      && stats.byHostType == Tally.Of(HostTypes(all))
      && stats.recent24h == CountSince(all, timeOf, now - Day)
      && stats.recent7d == CountSince(all, timeOf, now - Week)
  {
    var all := GetAllReports(store, timeOf);
    stats := Count(all, timeOf, now);
  }

  /**
   * The statistics agree with themselves: the per-type counts and the
   * per-host counts each add up to the total, every type count is that
   * type's number of reports, and the last day is part of the last week.
   */
  lemma StatisticsConsistent(reports: seq<ErrorReport>, timeOf: string -> int, now: int, t: string)
    ensures Tally.Total(Tally.Of(ErrorTypes(reports))) == |reports|
    ensures Tally.Total(Tally.Of(HostTypes(reports))) == |reports|
    ensures Tally.CountOf(Tally.Of(ErrorTypes(reports)), t) == Tally.Occurrences(ErrorTypes(reports), t)
    ensures CountSince(reports, timeOf, now - Day) <= CountSince(reports, timeOf, now - Week) <= |reports|
  {
    Tally.OfCounts(ErrorTypes(reports));
    Tally.OfCounts(HostTypes(reports));
    CountSinceMonotone(reports, timeOf, now - Week, now - Day);
  }
}
